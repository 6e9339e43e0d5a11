/** scripts/check-first-lyrics.js: one record per lyrics document that has
    lines, giving its first line and first timestamp; the records sorted by
    that timestamp; and the ones starting after 30 seconds picked out as
    suspicious. The documents come in as a sequence in listing order. */
module CheckFirstLyrics {
  import opened Base
  import opened PlaylistTypes
  import StableSort

  const SUSPICIOUS_AFTER_MS: int := 30000

  /** One pushed record (the seconds string, formatting only, is left out). */
  datatype FirstLyric = FirstLyric(
    file: string,
    trackName: string,
    artistName: string,
    firstTimestamp: int,
    firstLine: string)

  /** The record of one document, if it has lines. */
  function RecordOf(f: LyricsFile): (r: Option<FirstLyric>)
    ensures r.Some? <==> f.doc.lines != []
    ensures r.Some? ==>
      && r.value.file == f.name
      && r.value.firstTimestamp == f.doc.lines[0].timestamp
      && r.value.firstLine == f.doc.lines[0].text
  {
    if |f.doc.lines| > 0 then
      Some(FirstLyric(f.name, f.doc.trackName, f.doc.artistName, f.doc.lines[0].timestamp, f.doc.lines[0].text))
    else None
  }

  /** The records pushed for `files`, in listing order. */
  function Records(files: seq<LyricsFile>): (r: seq<FirstLyric>)
    ensures |r| <= |files|
    ensures forall k :: 0 <= k < |r| ==> exists i :: 0 <= i < |files| && RecordOf(files[i]) == Some(r[k])
    ensures forall i :: 0 <= i < |files| && files[i].doc.lines != [] ==> RecordOf(files[i]).value in r
  {
    if files == [] then []
    else
      var init := files[..|files| - 1];
      var prefix := Records(init);
      assert forall i :: 0 <= i < |init| ==> init[i] == files[i];
      match RecordOf(files[|files| - 1])
      case None => prefix
      case Some(rec) => prefix + [rec]
  }

  function FirstKey(r: FirstLyric): real { r.firstTimestamp as real }

  /** The forEach that pushes records, then the in-place sort by first
      timestamp. */
  method CollectFirstLyrics(files: seq<LyricsFile>) returns (tracks: seq<FirstLyric>)
    ensures tracks == StableSort.SortBy(Records(files), FirstKey)
  {
    tracks := [];
    var i := 0;
    while i < |files|
      invariant 0 <= i <= |files|
      invariant tracks == Records(files[..i])
    {
      var data := files[i].doc;
      assert files[..i + 1][..i] == files[..i];
      if |data.lines| > 0 {
        tracks := tracks + [FirstLyric(files[i].name, data.trackName, data.artistName,
                                       data.lines[0].timestamp, data.lines[0].text)];
      }
      i := i + 1;
    }
    assert files[..|files|] == files;
    tracks := StableSort.SortBy(tracks, FirstKey);
  }

  predicate IsSuspicious(t: FirstLyric) {
    t.firstTimestamp > SUSPICIOUS_AFTER_MS
  }

  /** tracks.filter(t => t.firstTimestamp > 30000) */
  function Suspicious(tracks: seq<FirstLyric>): seq<FirstLyric> {
    Filter(tracks, IsSuspicious)
  }

  /** The sorted records are ascending by first timestamp and are exactly
      the pushed ones; the suspicious ones are exactly those starting after
      30 s (30 s itself is fine), still ascending. */
  lemma CollectedProperties(files: seq<LyricsFile>)
    ensures var tracks := StableSort.SortBy(Records(files), FirstKey);
      StableSort.SortedBy(tracks, FirstKey) &&
      multiset(tracks) == multiset(Records(files)) &&
      (forall k :: 0 <= k < |tracks| ==> (tracks[k] in Suspicious(tracks) <==> tracks[k].firstTimestamp > 30000)) &&
      (forall k :: 0 <= k < |Suspicious(tracks)| ==> Suspicious(tracks)[k] in tracks) &&
      StableSort.SortedBy(Suspicious(tracks), FirstKey)
  {
    var tracks := StableSort.SortBy(Records(files), FirstKey);
    StableSort.SortIsSorted(Records(files), FirstKey);
    StableSort.SortIsPermutation(Records(files), FirstKey);
    StableSort.FilterKeepsSorted(tracks, IsSuspicious, FirstKey);
  }

  /** Documents without lines contribute nothing; every other document
      contributes its own record, and records keep listing order before the
      sort. */
  lemma {:induction false} RecordsAppend(a: seq<LyricsFile>, b: seq<LyricsFile>)
    ensures Records(a + b) == Records(a) + Records(b)
    decreases |b|
  {
    if b == [] {
      assert a + b == a;
    } else {
      var init := b[..|b| - 1];
      assert (a + b)[..|a + b| - 1] == a + init;
      RecordsAppend(a, init);
    }
  }
}
