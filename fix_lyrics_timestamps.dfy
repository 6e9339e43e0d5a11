/** scripts/fix-lyrics-timestamps.js: finds duplicate and out-of-order
    timestamps in a lyrics document and, when there are any, nudges each
    line that collides with an earlier one forward in 50 ms steps and then
    sorts by timestamp. Reading and writing the JSON files is left to the
    caller: a document goes in, the rewritten document (if any) comes out. */
module FixLyricsTimestamps {
  import opened Base
  import opened PlaylistTypes
  import StableSort

  const NUDGE_MS: int := 50

  // ---------------------------------------------------------------------
  // Detection

  /** The positions below `n` of the lines carrying timestamp `t`,
      ascending: the list the detection loop has built after `n` lines. */
  function IndicesBefore(lines: seq<LyricLine>, t: int, n: nat): (r: seq<nat>)
    requires n <= |lines|
    ensures forall k :: k in r <==> 0 <= k < n && lines[k].timestamp == t
    ensures forall a, b :: 0 <= a < b < |r| ==> r[a] < r[b]
  {
    if n == 0 then []
    else
      var prefix := IndicesBefore(lines, t, n - 1);
      assert forall a :: 0 <= a < |prefix| ==> prefix[a] in prefix;
      if lines[n - 1].timestamp == t then prefix + [n - 1] else prefix
  }

  function IndicesOf(lines: seq<LyricLine>, t: int): (r: seq<nat>)
    ensures forall k :: k in r <==> 0 <= k < |lines| && lines[k].timestamp == t
    ensures forall a, b :: 0 <= a < b < |r| ==> r[a] < r[b]
  {
    IndicesBefore(lines, t, |lines|)
  }

  /** Line k's timestamp is strictly below the previous line's. */
  predicate StepsBack(lines: seq<LyricLine>, k: int)
    requires 0 < k < |lines|
  {
    lines[k].timestamp < lines[k - 1].timestamp
  }

  /** The positions below `n` whose timestamp is strictly below the previous
      line's, ascending. */
  function OutOfOrderBefore(lines: seq<LyricLine>, n: nat): (r: seq<nat>)
    requires n <= |lines|
    ensures forall k :: k in r <==> 0 < k < n && StepsBack(lines, k)
  {
    if n <= 1 then []
    else
      var prefix := OutOfOrderBefore(lines, n - 1);
      if StepsBack(lines, n - 1) then prefix + [n - 1] else prefix
  }

  function OutOfOrder(lines: seq<LyricLine>): (r: seq<nat>)
    ensures forall k :: k in r <==> 0 < k < |lines| && StepsBack(lines, k)
  {
    OutOfOrderBefore(lines, |lines|)
  }

  /** The timestamp values whose list in the dictionary has more than one
      position: exactly the values two different lines share. */
  function DuplicatedTimestamps(lines: seq<LyricLine>): (r: set<int>)
    ensures forall i, j :: 0 <= i < j < |lines| && lines[i].timestamp == lines[j].timestamp
                           ==> lines[i].timestamp in r
    ensures forall t :: t in r ==>
              exists i, j :: 0 <= i < j < |lines| && lines[i].timestamp == t && lines[j].timestamp == t
  {
    SharedValuesListed(lines);
    ListedValuesShared(lines);
    set i | 0 <= i < |lines| && |IndicesOf(lines, lines[i].timestamp)| > 1 :: lines[i].timestamp
  }

  /** Two lines with one value put two positions in that value's list. */
  lemma SharedValuesListed(lines: seq<LyricLine>)
    ensures forall i, j :: 0 <= i < j < |lines| && lines[i].timestamp == lines[j].timestamp
                           ==> |IndicesOf(lines, lines[i].timestamp)| > 1
  {
    forall i, j | 0 <= i < j < |lines| && lines[i].timestamp == lines[j].timestamp
      ensures |IndicesOf(lines, lines[i].timestamp)| > 1
    {
      var r := IndicesOf(lines, lines[i].timestamp);
      assert i in r && j in r;
    }
  }

  /** A list with two positions names two lines sharing its value. */
  lemma ListedValuesShared(lines: seq<LyricLine>)
    ensures forall k :: 0 <= k < |lines| && |IndicesOf(lines, lines[k].timestamp)| > 1 ==>
              exists i, j :: 0 <= i < j < |lines| && lines[i].timestamp == lines[k].timestamp
                                                  && lines[j].timestamp == lines[k].timestamp
  {
    forall k | 0 <= k < |lines| && |IndicesOf(lines, lines[k].timestamp)| > 1
      ensures exists i, j :: 0 <= i < j < |lines| && lines[i].timestamp == lines[k].timestamp
                                                  && lines[j].timestamp == lines[k].timestamp
    {
      var r := IndicesOf(lines, lines[k].timestamp);
      assert r[0] in r && r[1] in r && r[0] < r[1];
    }
  }

  /** The script's issue count: one per duplicated value, one per line out of
      order. A document without issues climbs strictly from line to line. */
  function IssueCount(lines: seq<LyricLine>): (n: nat)
    ensures n == 0 ==> forall k :: 0 < k < |lines| ==> lines[k - 1].timestamp < lines[k].timestamp
  {
    var n := |DuplicatedTimestamps(lines)| + |OutOfOrder(lines)|;
    assert n == 0 ==> forall k :: 0 < k < |lines| ==> k !in OutOfOrder(lines);
    n
  }

  lemma {:induction false} ChainOrdered(lines: seq<LyricLine>, i: int, j: int)
    requires forall k :: 0 < k < |lines| ==> lines[k - 1].timestamp <= lines[k].timestamp
    requires 0 <= i <= j < |lines|
    ensures lines[i].timestamp <= lines[j].timestamp
    decreases j - i
  {
    if i < j {
      ChainOrdered(lines, i, j - 1);
    }
  }

  /** A value held by two lines breaks strict increase. */
  lemma DuplicateBreaksStrictness(lines: seq<LyricLine>, t: int)
    requires t in DuplicatedTimestamps(lines)
    ensures !StrictlyIncreasing(lines)
  {
    var r := IndicesOf(lines, t);
    assert r[0] in r && r[1] in r && r[0] < r[1];
  }

  /** Without an out-of-order line, a failure of strict increase is two
      equal values, which the detection reports as a duplicate. */
  lemma NotStrictlyIncreasingHasIssue(lines: seq<LyricLine>)
    requires !StrictlyIncreasing(lines) && OutOfOrder(lines) == []
    ensures DuplicatedTimestamps(lines) != {}
  {
    var i, j :| 0 <= i < j < |lines| && lines[i].timestamp >= lines[j].timestamp;
    forall k | 0 < k < |lines| ensures lines[k - 1].timestamp <= lines[k].timestamp {
      assert k !in OutOfOrder(lines);
    }
    ChainOrdered(lines, i, j);
    var r := IndicesOf(lines, lines[i].timestamp);
    assert i in r && j in r;
    var a :| 0 <= a < |r| && r[a] == i;
    var b :| 0 <= b < |r| && r[b] == j;
    assert a != b && |r| > 1;
    assert lines[i].timestamp in DuplicatedTimestamps(lines);
  }

  /** A document has an issue exactly when its timestamps are not strictly
      increasing: equal neighbours are no ordering issue but are a
      duplicate. */
  lemma IssuesIffNotStrictlyIncreasing(lines: seq<LyricLine>)
    ensures IssueCount(lines) > 0 <==> !StrictlyIncreasing(lines)
  {
    if IssueCount(lines) == 0 {
      forall i, j | 0 <= i < j < |lines| ensures lines[i].timestamp < lines[j].timestamp {
        StrictChain(lines, i, j);
      }
    } else if OutOfOrder(lines) != [] {
      var k := OutOfOrder(lines)[0];
      assert k in OutOfOrder(lines);
    } else {
      var t :| t in DuplicatedTimestamps(lines);
    }
  }

  lemma {:induction false} StrictChain(lines: seq<LyricLine>, i: int, j: int)
    requires forall k :: 0 < k < |lines| ==> lines[k - 1].timestamp < lines[k].timestamp
    requires 0 <= i < j < |lines|
    ensures lines[i].timestamp < lines[j].timestamp
    decreases j - i
  {
    if i < j - 1 {
      StrictChain(lines, i, j - 1);
    }
  }

  lemma IndicesBeforeStep(lines: seq<LyricLine>, t: int, i: nat)
    requires i < |lines|
    ensures lines[i].timestamp == t ==> IndicesBefore(lines, t, i + 1) == IndicesBefore(lines, t, i) + [i]
    ensures lines[i].timestamp != t ==> IndicesBefore(lines, t, i + 1) == IndicesBefore(lines, t, i)
  {
  }

  /** `groups` maps each timestamp carried by one of the first n lines to
      the positions, in order, of the lines among them carrying it. */
  ghost predicate GroupsBefore(lines: seq<LyricLine>, groups: map<int, seq<nat>>, n: nat)
    requires n <= |lines|
  {
    forall t :: (t in groups <==> IndicesBefore(lines, t, n) != [])
                && (t in groups ==> groups[t] == IndicesBefore(lines, t, n))
  }

  /** One step of the detection loop's dictionary: line i's position is
      appended to its timestamp's list, which is created if missing. */
  method RecordTimestamp(lines: seq<LyricLine>, i: nat, groups: map<int, seq<nat>>)
    returns (grown: map<int, seq<nat>>)
    requires i < |lines| && GroupsBefore(lines, groups, i)
    ensures GroupsBefore(lines, grown, i + 1)
  {
    var timestamp := lines[i].timestamp;
    forall t ensures timestamp != t ==> IndicesBefore(lines, t, i + 1) == IndicesBefore(lines, t, i) {
      IndicesBeforeStep(lines, t, i);
    }
    IndicesBeforeStep(lines, timestamp, i);
    if timestamp in groups {
      grown := groups[timestamp := groups[timestamp] + [i]];
    } else {
      grown := groups[timestamp := [i]];
    }
  }

  /** The detection loop: a dictionary from timestamp to the positions
      carrying it, and the list of out-of-order positions. */
  method DetectIssues(lines: seq<LyricLine>) returns (duplicateTimestamps: map<int, seq<nat>>, outOfOrderLines: seq<nat>)
    ensures forall t :: t in duplicateTimestamps <==> IndicesOf(lines, t) != []
    ensures forall t :: t in duplicateTimestamps ==> duplicateTimestamps[t] == IndicesOf(lines, t)
    ensures outOfOrderLines == OutOfOrder(lines)
  {
    duplicateTimestamps := map[];
    outOfOrderLines := [];
    var i := 0;
    while i < |lines|
      invariant 0 <= i <= |lines|
      invariant GroupsBefore(lines, duplicateTimestamps, i)
      invariant outOfOrderLines == OutOfOrderBefore(lines, i)
    {
      duplicateTimestamps := RecordTimestamp(lines, i, duplicateTimestamps);
      OutOfOrderStep(lines, i);
      if i > 0 && StepsBack(lines, i) {
        outOfOrderLines := outOfOrderLines + [i];
      }
      i := i + 1;
    }
    GroupsComplete(lines, duplicateTimestamps);
  }

  lemma OutOfOrderStep(lines: seq<LyricLine>, i: nat)
    requires i < |lines|
    ensures OutOfOrderBefore(lines, i + 1)
         == if i > 0 && StepsBack(lines, i) then OutOfOrderBefore(lines, i) + [i] else OutOfOrderBefore(lines, i)
  {
  }

  /** Once every line is recorded, the lists are the full position lists. */
  lemma GroupsComplete(lines: seq<LyricLine>, groups: map<int, seq<nat>>)
    requires GroupsBefore(lines, groups, |lines|)
    ensures forall t :: t in groups <==> IndicesOf(lines, t) != []
    ensures forall t :: t in groups ==> groups[t] == IndicesOf(lines, t)
  {
    forall t ensures (t in groups <==> IndicesOf(lines, t) != []) && (t in groups ==> groups[t] == IndicesOf(lines, t)) {
      assert IndicesOf(lines, t) == IndicesBefore(lines, t, |lines|);
    }
  }

  // ---------------------------------------------------------------------
  // Nudging

  /** The timestamps carried by some line. */
  function TimestampSet(s: seq<LyricLine>): set<int> {
    if s == [] then {} else TimestampSet(s[..|s| - 1]) + {s[|s| - 1].timestamp}
  }

  lemma {:induction false} TimestampSetHolds(s: seq<LyricLine>, k: int)
    requires 0 <= k < |s|
    ensures s[k].timestamp in TimestampSet(s)
    decreases |s|
  {
    if k < |s| - 1 {
      TimestampSetHolds(s[..|s| - 1], k);
    }
  }

  lemma {:induction false} TimestampSetOnlyHolds(s: seq<LyricLine>, t: int)
    requires forall k :: 0 <= k < |s| ==> s[k].timestamp != t
    ensures t !in TimestampSet(s)
    decreases |s|
  {
    if s != [] {
      TimestampSetOnlyHolds(s[..|s| - 1], t);
    }
  }

  lemma {:induction false} TimestampSetSize(s: seq<LyricLine>)
    ensures |TimestampSet(s)| <= |s|
    decreases |s|
  {
    if s != [] {
      TimestampSetSize(s[..|s| - 1]);
    }
  }

  /** The number of 50 ms steps from `v` to the first value not taken. Each
      step discards a taken value, so there are at most |taken| of them. */
  function FreeOffset(taken: set<int>, v: int): (k: nat)
    ensures k <= |taken|
    ensures v + NUDGE_MS * k !in taken
    ensures k == 0 <==> v !in taken
    decreases |taken|
  {
    if v in taken then 1 + FreeOffset(taken - {v}, v + NUDGE_MS) else 0
  }

  /** Every value skipped on the way is taken: the offset is the least one
      that reaches a free value. */
  lemma {:induction false} FreeOffsetIsLeast(taken: set<int>, v: int, m: int)
    requires 0 <= m < FreeOffset(taken, v)
    ensures v + NUDGE_MS * m in taken
    decreases |taken|
  {
    if m > 0 {
      FreeOffsetIsLeast(taken - {v}, v + NUDGE_MS, m - 1);
      assert (v + NUDGE_MS) + NUDGE_MS * (m - 1) == v + NUDGE_MS * m;
    }
  }

  /** Values below the starting point do not affect the search. */
  lemma {:induction false} FreeOffsetIgnoresBelow(taken: set<int>, x: int, v: int)
    requires x < v
    ensures FreeOffset(taken - {x}, v) == FreeOffset(taken, v)
    decreases |taken|
  {
    if v in taken {
      FreeOffsetIgnoresBelow(taken - {v}, x, v + NUDGE_MS);
      assert taken - {x} - {v} == taken - {v} - {x};
    }
  }

  /** One step of the search: a taken value sends it 50 ms further. */
  lemma FreeOffsetStep(taken: set<int>, v: int)
    requires v in taken
    ensures FreeOffset(taken, v) == 1 + FreeOffset(taken, v + NUDGE_MS)
  {
    FreeOffsetIgnoresBelow(taken, v, v + NUDGE_MS);
  }

  lemma TimestampSetSnoc(s: seq<LyricLine>, x: LyricLine)
    ensures TimestampSet(s + [x]) == TimestampSet(s) + {x.timestamp}
  {
    assert (s + [x])[..|s|] == s;
  }

  /** Line `x` after the lines `prev` have been processed: moved forward
      to the first value, in 50 ms steps from its own, that no line of
      `prev` holds. */
  function NudgeLine(prev: seq<LyricLine>, x: LyricLine): (r: LyricLine)
    ensures r.text == x.text && r.timestamp >= x.timestamp
    ensures (r.timestamp - x.timestamp) % NUDGE_MS == 0
    ensures r.timestamp !in TimestampSet(prev)
  {
    x.(timestamp := x.timestamp + NUDGE_MS * FreeOffset(TimestampSet(prev), x.timestamp))
  }

  /** The first `n` lines after the nudging loop has processed them. */
  function NudgedBefore(lines: seq<LyricLine>, n: nat): (r: seq<LyricLine>)
    requires n <= |lines|
    ensures |r| == n
  {
    if n == 0 then []
    else
      var prev := NudgedBefore(lines, n - 1);
      prev + [NudgeLine(prev, lines[n - 1])]
  }

  /** The lines after the nudging loop: line for line the same texts, each
      timestamp kept or moved forward. */
  function Nudged(lines: seq<LyricLine>): (r: seq<LyricLine>)
    ensures |r| == |lines|
    ensures forall i :: 0 <= i < |lines| ==> r[i].text == lines[i].text && r[i].timestamp >= lines[i].timestamp
  {
    NudgedBeforeMovesForward(lines, |lines|);
    NudgedBefore(lines, |lines|)
  }

  /** Each of the first n nudged lines keeps its text and is not moved
      backwards. */
  lemma {:induction false} NudgedBeforeMovesForward(lines: seq<LyricLine>, n: nat)
    requires n <= |lines|
    ensures forall i :: 0 <= i < n ==>
      NudgedBefore(lines, n)[i].text == lines[i].text && NudgedBefore(lines, n)[i].timestamp >= lines[i].timestamp
  {
    if n > 0 {
      NudgedBeforeMovesForward(lines, n - 1);
      var prev := NudgedBefore(lines, n - 1);
      assert NudgedBefore(lines, n) == prev + [NudgeLine(prev, lines[n - 1])];
    }
  }

  lemma {:induction false} NudgedBeforePrefix(lines: seq<LyricLine>, n: nat, i: nat)
    requires i <= n <= |lines|
    ensures NudgedBefore(lines, n)[..i] == NudgedBefore(lines, i)
    decreases n - i
  {
    var whole := NudgedBefore(lines, n);
    if i < n {
      NudgedBeforePrefix(lines, n, i + 1);
      NudgedBeforeDropLast(lines, i + 1);
      PrefixOfPrefix(whole, i + 1, i);
    } else {
      PrefixOfPrefix(whole, n, n);
    }
  }

  lemma PrefixOfPrefix<T>(s: seq<T>, m: nat, i: nat)
    requires i <= m <= |s|
    ensures s[..m][..i] == s[..i] && s[..|s|] == s
  {
  }

  /** Dropping the last nudged line gives the lines before it. */
  lemma NudgedBeforeDropLast(lines: seq<LyricLine>, n: nat)
    requires 0 < n <= |lines|
    ensures NudgedBefore(lines, n)[..n - 1] == NudgedBefore(lines, n - 1)
  {
    var prev := NudgedBefore(lines, n - 1);
    assert (prev + [NudgeLine(prev, lines[n - 1])])[..n - 1] == prev;
  }

  /** Line i keeps its text and moves forward by 50 ms times the least
      number of steps that reaches a value no earlier line holds; that
      number is at most i. */
  lemma NudgeStep(lines: seq<LyricLine>, i: int)
    requires 0 <= i < |lines|
    ensures var r := Nudged(lines);
      var k := FreeOffset(TimestampSet(r[..i]), lines[i].timestamp);
      r[i] == lines[i].(timestamp := lines[i].timestamp + NUDGE_MS * k) && k <= i
  {
    var r := Nudged(lines);
    NudgedBeforePrefix(lines, |lines|, i + 1);
    NudgedBeforePrefix(lines, |lines|, i);
    var prev := NudgedBefore(lines, i);
    assert r[i] == NudgedBefore(lines, i + 1)[i] == NudgeLine(prev, lines[i]);
    TimestampSetSize(prev);
  }

  /** After the loop no two lines share a timestamp. */
  lemma NudgedPairDistinct(lines: seq<LyricLine>, i: int, j: int)
    requires 0 <= i < j < |lines|
    ensures Nudged(lines)[i].timestamp != Nudged(lines)[j].timestamp
  {
    var r := Nudged(lines);
    NudgeStep(lines, j);
    assert r[..j][i] == r[i];
    TimestampSetHolds(r[..j], i);
  }

  /** A line is left alone exactly when its value was still free. */
  lemma NudgedUnchangedIffFree(lines: seq<LyricLine>, i: int)
    requires 0 <= i < |lines|
    ensures Nudged(lines)[i] == lines[i] <==> lines[i].timestamp !in TimestampSet(Nudged(lines)[..i])
  {
    NudgeStep(lines, i);
  }

  /** The state of the nudging loop after `i` lines: those lines are
      processed, the rest untouched. */
  ghost predicate NudgedUpTo(lines: seq<LyricLine>, fixed: seq<LyricLine>, i: nat)
    requires i <= |lines| == |fixed|
  {
    fixed[..i] == NudgedBefore(lines, i) && fixed[i..] == lines[i..]
  }

  /** One pass of the outer loop: storing the nudged line extends the
      processed prefix by one. */
  lemma NudgeAdvance(lines: seq<LyricLine>, fixed: seq<LyricLine>, i: nat, offset: int)
    requires i < |lines| == |fixed| && NudgedUpTo(lines, fixed, i)
    requires offset == NUDGE_MS * FreeOffset(TimestampSet(fixed[..i]), fixed[i].timestamp)
    ensures var next := if offset > 0 then fixed[i := fixed[i].(timestamp := fixed[i].timestamp + offset)] else fixed;
      NudgedUpTo(lines, next, i + 1) &&
      TimestampSet(next[..i + 1]) == TimestampSet(fixed[..i]) + {next[i].timestamp}
  {
    assert fixed[i] == lines[i] by {
      assert fixed[i..][0] == lines[i..][0];
    }
    var line := fixed[i].(timestamp := fixed[i].timestamp + offset);
    assert line == NudgeLine(fixed[..i], lines[i]);
    var next := fixed[i := line];
    assert next[..i + 1] == fixed[..i] + [line];
    assert next[i + 1..] == fixed[i + 1..] == lines[i + 1..];
    TimestampSetSnoc(fixed[..i], line);
    if offset == 0 {
      assert next == fixed;
    }
  }

  /** The inner loop: the offset, in 50 ms steps, from `timestamp` to the
      first value not yet used. */
  method FreeSlotOffset(processedTimestamps: set<int>, timestamp: int) returns (offset: int)
    ensures offset == NUDGE_MS * FreeOffset(processedTimestamps, timestamp)
  {
    offset := 0;
    ghost var steps: nat := 0;
    while timestamp + offset in processedTimestamps
      invariant offset == NUDGE_MS * steps
      invariant FreeOffset(processedTimestamps, timestamp)
             == steps + FreeOffset(processedTimestamps, timestamp + offset)
      decreases |processedTimestamps| - steps
    {
      FreeOffsetStep(processedTimestamps, timestamp + offset);
      offset := offset + NUDGE_MS;
      steps := steps + 1;
    }
  }

  /** The nudging loop, with the `processed` set of values already used. */
  method NudgeDuplicates(lines: seq<LyricLine>) returns (fixedLines: seq<LyricLine>)
    ensures fixedLines == Nudged(lines)
  {
    fixedLines := lines;
    var processedTimestamps: set<int> := {};
    var i := 0;
    while i < |fixedLines|
      invariant 0 <= i <= |fixedLines| == |lines|
      invariant NudgedUpTo(lines, fixedLines, i)
      invariant processedTimestamps == TimestampSet(fixedLines[..i])
    {
      var timestamp := fixedLines[i].timestamp;
      var offset := FreeSlotOffset(processedTimestamps, timestamp);
      NudgeAdvance(lines, fixedLines, i, offset);
      if offset > 0 {
        fixedLines := fixedLines[i := fixedLines[i].(timestamp := timestamp + offset)];
      }
      processedTimestamps := processedTimestamps + {fixedLines[i].timestamp};
      i := i + 1;
    }
    assert fixedLines[..|fixedLines|] == fixedLines;
  }

  // ---------------------------------------------------------------------
  // Sorting and the whole repair

  /** Strictly sorted by the timestamp key is strictly increasing. */
  lemma StrictlySortedIsStrictlyIncreasing(s: seq<LyricLine>)
    requires StableSort.StrictlySortedBy(s, TimestampKey)
    ensures StrictlyIncreasing(s)
  {
    forall i, j | 0 <= i < j < |s| ensures s[i].timestamp < s[j].timestamp {
      assert TimestampKey(s[i]) < TimestampKey(s[j]);
    }
  }

  /** The lines the script writes back: the nudged lines reordered, with
      strictly increasing timestamps. */
  function Fixed(lines: seq<LyricLine>): (r: seq<LyricLine>)
    ensures StrictlyIncreasing(r)
    ensures multiset(r) == multiset(Nudged(lines))
  {
    var nudged := Nudged(lines);
    NudgedKeysDistinct(lines);
    StableSort.SortIsStrictlySorted(nudged, TimestampKey);
    StrictlySortedIsStrictlyIncreasing(StableSort.SortBy(nudged, TimestampKey));
    StableSort.SortIsPermutation(nudged, TimestampKey);
    StableSort.SortBy(nudged, TimestampKey)
  }

  lemma NudgedKeysDistinct(lines: seq<LyricLine>)
    ensures var r := Nudged(lines);
      forall i, j :: 0 <= i < j < |r| ==> TimestampKey(r[i]) != TimestampKey(r[j])
  {
    var r := Nudged(lines);
    forall i, j | 0 <= i < j < |r| ensures TimestampKey(r[i]) != TimestampKey(r[j]) {
      NudgedPairDistinct(lines, i, j);
    }
  }

  /** The repaired lines have strictly increasing timestamps, so checking
      them again finds no issue; they are the nudged lines reordered. */
  lemma FixedProperties(lines: seq<LyricLine>)
    ensures StrictlyIncreasing(Fixed(lines))
    ensures IssueCount(Fixed(lines)) == 0
    ensures multiset(Fixed(lines)) == multiset(Nudged(lines))
  {
    IssuesIffNotStrictlyIncreasing(Fixed(lines));
  }

  /** A document that was already strictly increasing would be written back
      unchanged (the script does not rewrite it at all). */
  lemma CleanLinesAreFixedPoint(lines: seq<LyricLine>)
    requires StrictlyIncreasing(lines)
    ensures Nudged(lines) == lines && Fixed(lines) == lines
  {
    forall i | 0 <= i < |lines| ensures Nudged(lines)[i] == lines[i] {
      NudgedUnchangedAt(lines, i);
    }
    StableSort.SortOfSortedIsIdentity(lines, TimestampKey);
  }

  lemma {:induction false} NudgedUnchangedAt(lines: seq<LyricLine>, i: int)
    requires StrictlyIncreasing(lines) && 0 <= i < |lines|
    ensures Nudged(lines)[i] == lines[i]
    decreases i
  {
    var r := Nudged(lines);
    forall j | 0 <= j < i ensures r[j] == lines[j] {
      NudgedUnchangedAt(lines, j);
    }
    forall j | 0 <= j < i ensures r[..i][j].timestamp != lines[i].timestamp {
      assert r[..i][j] == lines[j];
    }
    TimestampSetOnlyHolds(r[..i], lines[i].timestamp);
    NudgedUnchangedIffFree(lines, i);
  }

  /** One file: count the issues; when there is any, rewrite the document
      with the repaired lines and every other field kept. */
  method FixDocument(doc: SyncedLyrics) returns (rewritten: Option<SyncedLyrics>, issues: nat)
    ensures issues == IssueCount(doc.lines)
    ensures rewritten.Some? <==> !StrictlyIncreasing(doc.lines)
    ensures rewritten.Some? ==> rewritten.value == doc.(lines := Fixed(doc.lines))
  {
    var duplicateTimestamps, outOfOrderLines := DetectIssues(doc.lines);
    var duplicated := set t | t in duplicateTimestamps && |duplicateTimestamps[t]| > 1;
    assert duplicated == DuplicatedTimestamps(doc.lines) by {
      forall t | t in duplicated ensures t in DuplicatedTimestamps(doc.lines) {
        var r := IndicesOf(doc.lines, t);
        assert r[0] in r;
      }
    }
    issues := |duplicated| + |outOfOrderLines|;
    var hasIssues := |duplicated| > 0 || |outOfOrderLines| > 0;
    IssuesIffNotStrictlyIncreasing(doc.lines);
    if hasIssues {
      var fixedLines := NudgeDuplicates(doc.lines);
      fixedLines := StableSort.SortBy(fixedLines, TimestampKey);
      rewritten := Some(doc.(lines := fixedLines));
    } else {
      rewritten := None;
    }
  }
}
