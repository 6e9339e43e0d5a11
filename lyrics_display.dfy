/** components/LyricsDisplay.tsx: which lyric line is active at a playback
    position. Only the index computation is modelled; scrolling and
    rendering are not. */
module LyricsDisplay {
  import opened Base
  import opened PlaylistTypes

  /** The length of the longest prefix of `lines` whose timestamps are all at
      most `adjusted`. */
  function CoveredPrefix(lines: seq<LyricLine>, adjusted: int): (k: nat)
    ensures k <= |lines|
    ensures forall i :: 0 <= i < k ==> lines[i].timestamp <= adjusted
    ensures k < |lines| ==> lines[k].timestamp > adjusted
  {
    if lines == [] || lines[0].timestamp > adjusted then 0
    else 1 + CoveredPrefix(lines[1..], adjusted)
  }

  /** The two facts that define the covered prefix determine it. */
  lemma {:induction false} CoveredPrefixUnique(lines: seq<LyricLine>, adjusted: int, k: nat)
    requires k <= |lines|
    requires forall i :: 0 <= i < k ==> lines[i].timestamp <= adjusted
    requires k < |lines| ==> lines[k].timestamp > adjusted
    ensures CoveredPrefix(lines, adjusted) == k
  {
    if k > 0 {
      CoveredPrefixUnique(lines[1..], adjusted, k - 1);
    }
  }

  /** The active line index for `lyrics` at `position` shifted by `offset`:
      -1 without lyrics, otherwise the index of the last line of the covered
      prefix (-1 when even the first line lies ahead). */
  function ActiveLine(lyrics: Option<SyncedLyrics>, position: int, offset: int): (r: int)
    ensures lyrics.None? || lyrics.value.lines == [] ==> r == -1
    ensures lyrics.Some? ==> -1 <= r < |lyrics.value.lines|
  {
    if lyrics.None? || |lyrics.value.lines| == 0 then -1
    else CoveredPrefix(lyrics.value.lines, position + offset) - 1
  }

  /** The scan of the first effect: walk the lines while the adjusted
      position has reached them, stop at the first one ahead. */
  method ResolveActiveLine(lyrics: Option<SyncedLyrics>, currentPosition: int, offsetMs: int)
    returns (activeLineIndex: int)
    ensures activeLineIndex == ActiveLine(lyrics, currentPosition, offsetMs)
  {
    if lyrics.None? || |lyrics.value.lines| == 0 {
      return -1;
    }
    var lines := lyrics.value.lines;
    var adjustedPosition := currentPosition + offsetMs;
    var currentIndex := -1;
    var i := 0;
    while i < |lines|
      invariant 0 <= i <= |lines|
      invariant currentIndex == i - 1
      invariant forall j :: 0 <= j < i ==> lines[j].timestamp <= adjustedPosition
    {
      if adjustedPosition >= lines[i].timestamp {
        currentIndex := i;
      } else {
        break;
      }
      i := i + 1;
    }
    CoveredPrefixUnique(lines, adjustedPosition, i);
    activeLineIndex := currentIndex;
  }

  /** Only the sum of position and offset matters. */
  lemma OffsetInvariance(lyrics: Option<SyncedLyrics>, position: int, offset: int, d: int)
    ensures ActiveLine(lyrics, position + d, offset - d) == ActiveLine(lyrics, position, offset)
  {
  }

  /** Before the first line's timestamp nothing is highlighted. */
  lemma NothingBeforeFirstLine(lyrics: SyncedLyrics, position: int, offset: int)
    requires |lyrics.lines| > 0 && position + offset < lyrics.lines[0].timestamp
    ensures ActiveLine(Some(lyrics), position, offset) == -1
  {
  }

  /** On lines ordered by timestamp the active index is the last line whose
      timestamp has been reached: every later line lies ahead, so among equal
      timestamps the last one wins. */
  lemma SortedActiveIsLastReached(lyrics: SyncedLyrics, position: int, offset: int)
    requires NonDecreasing(lyrics.lines)
    ensures var r := ActiveLine(Some(lyrics), position, offset);
      (r >= 0 ==> lyrics.lines[r].timestamp <= position + offset) &&
      (forall j :: r < j < |lyrics.lines| ==> lyrics.lines[j].timestamp > position + offset) &&
      (forall j :: 0 <= j <= r ==> lyrics.lines[j].timestamp <= position + offset)
  {
    var lines := lyrics.lines;
    var k := CoveredPrefix(lines, position + offset);
    forall j | k - 1 < j < |lines| ensures lines[j].timestamp > position + offset {
      assert lines[k].timestamp <= lines[j].timestamp;
    }
  }

  /** A position exactly on a line's timestamp reaches that line: the active
      index is that line or a later one with the same timestamp. */
  lemma ExactTimestampSelected(lyrics: SyncedLyrics, position: int, offset: int, i: int)
    requires NonDecreasing(lyrics.lines)
    requires 0 <= i < |lyrics.lines| && lyrics.lines[i].timestamp == position + offset
    ensures var r := ActiveLine(Some(lyrics), position, offset);
      i <= r && lyrics.lines[r].timestamp == position + offset
  {
    SortedActiveIsLastReached(lyrics, position, offset);
  }

  /** The covered prefix never shrinks as the adjusted position grows. */
  lemma {:induction false} CoveredPrefixMonotone(lines: seq<LyricLine>, a1: int, a2: int)
    requires a1 <= a2
    ensures CoveredPrefix(lines, a1) <= CoveredPrefix(lines, a2)
  {
    if lines != [] && lines[0].timestamp <= a1 {
      CoveredPrefixMonotone(lines[1..], a1, a2);
    }
  }

  /** The active index never decreases as playback moves forward. */
  lemma ActiveLineMonotone(lyrics: Option<SyncedLyrics>, p1: int, p2: int, offset: int)
    requires p1 <= p2
    ensures ActiveLine(lyrics, p1, offset) <= ActiveLine(lyrics, p2, offset)
  {
    if lyrics.Some? && |lyrics.value.lines| > 0 {
      CoveredPrefixMonotone(lyrics.value.lines, p1 + offset, p2 + offset);
    }
  }
}
