/** scripts/fix-never-matter.js: shifts every line of one lyrics document so
    that its first line lands at 800 ms, clamping at 0. Reading and writing
    the file is left to the caller. With no lines the script fails on
    `data.lines[0]` before writing anything, which is modelled as None. */
module FixNeverMatter {
  import opened Base
  import opened PlaylistTypes

  const FIRST_LINE_MS: int := 800

  /** One line moved back by `offset`, never below 0: the text is kept, and
      the timestamp drops by exactly `offset` unless that would go below 0. */
  function ShiftLine(line: LyricLine, offset: int): (r: LyricLine)
    ensures r.text == line.text && r.timestamp >= 0
    ensures offset <= line.timestamp ==> r.timestamp == line.timestamp - offset
    ensures offset > line.timestamp ==> r.timestamp == 0
  {
    line.(timestamp := Max(0, line.timestamp - offset))
  }

  /** The rewritten document, or None when the script would fail. */
  function FixDocument(doc: SyncedLyrics): (r: Option<SyncedLyrics>)
    ensures r.None? <==> doc.lines == []
    ensures r.Some? ==>
      var offset := doc.lines[0].timestamp - FIRST_LINE_MS;
      r.value.trackId == doc.trackId && r.value.trackName == doc.trackName &&
      r.value.artistName == doc.artistName &&
      |r.value.lines| == |doc.lines| &&
      forall i :: 0 <= i < |doc.lines| ==>
        r.value.lines[i].text == doc.lines[i].text &&
        r.value.lines[i].timestamp >= 0 &&
        r.value.lines[i].timestamp == Max(0, doc.lines[i].timestamp - offset)
  {
    if doc.lines == [] then None
    else
      var offset := doc.lines[0].timestamp - FIRST_LINE_MS;
      Some(doc.(lines := seq(|doc.lines|, i requires 0 <= i < |doc.lines| => ShiftLine(doc.lines[i], offset))))
  }

  /** The first line ends up at exactly 800 ms, and every line at or after
      the first keeps its distance to it. */
  lemma FirstLineAt800(doc: SyncedLyrics)
    requires doc.lines != []
    ensures FixDocument(doc).value.lines[0].timestamp == FIRST_LINE_MS
    ensures forall i :: 0 <= i < |doc.lines| && doc.lines[i].timestamp >= doc.lines[0].timestamp - FIRST_LINE_MS ==>
      FixDocument(doc).value.lines[i].timestamp - FIRST_LINE_MS == doc.lines[i].timestamp - doc.lines[0].timestamp
  {
  }

  /** The shift is monotone: lines in order stay in order, and a
      non-decreasing document stays non-decreasing. */
  lemma ShiftKeepsOrder(doc: SyncedLyrics)
    requires doc.lines != []
    ensures forall i, j :: 0 <= i < |doc.lines| && 0 <= j < |doc.lines| && doc.lines[i].timestamp <= doc.lines[j].timestamp ==>
      FixDocument(doc).value.lines[i].timestamp <= FixDocument(doc).value.lines[j].timestamp
    ensures NonDecreasing(doc.lines) ==> NonDecreasing(FixDocument(doc).value.lines)
  {
  }

  /** Running the script a second time changes nothing: the first line is
      already at 800 ms, so the offset is 0 and no timestamp is negative. */
  lemma FixIsIdempotent(doc: SyncedLyrics)
    requires doc.lines != []
    ensures FixDocument(FixDocument(doc).value) == FixDocument(doc)
  {
    var once := FixDocument(doc).value;
    var twice := FixDocument(once).value;
    assert once.lines[0].timestamp == FIRST_LINE_MS;
    assert twice.lines == once.lines;
  }
}
