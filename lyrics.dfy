/** lib/lyrics.ts: parsing LRC text into timed lyric lines, and fetching and
    caching a lyrics document per track. The LRCLIB search (network) and the
    cache directory (file system) are oracles: the search result is a
    parameter, the cache is a map from track id to the stored document. */
module Lyrics {
  import opened Base
  import opened PlaylistTypes
  import StableSort

  // ---------------------------------------------------------------------
  // One LRC line

  /** The capture groups of /^\[(\d{2}):(\d{2})\.(\d{2,3})\](.*)$/. */
  datatype LrcTag = LrcTag(minutes: string, seconds: string, fraction: string, rest: string)

  predicate WellFormedTag(t: LrcTag) {
    |t.minutes| == 2 && AllDigits(t.minutes) &&
    |t.seconds| == 2 && AllDigits(t.seconds) &&
    2 <= |t.fraction| <= 3 && AllDigits(t.fraction) &&
    NoLineTerminator(t.rest)
  }

  /** The line a tag was matched from. */
  function TagText(t: LrcTag): string {
    "[" + t.minutes + ":" + t.seconds + "." + t.fraction + "]" + t.rest
  }

  /** Matching one line (already split on '\n') against the LRC pattern. The
      pattern is anchored at both ends and `.` refuses line terminators, so
      the whole remainder after `]` must be free of them. */
  function MatchLrcLine(line: string): (m: Option<LrcTag>)
    ensures m.Some? ==> WellFormedTag(m.value) && TagText(m.value) == line
  {
    if |line| >= 10 && line[0] == '[' && IsDigit(line[1]) && IsDigit(line[2]) && line[3] == ':'
       && IsDigit(line[4]) && IsDigit(line[5]) && line[6] == '.' && IsDigit(line[7]) && IsDigit(line[8])
    then
      if line[9] == ']' && NoLineTerminator(line[10..]) then
        TagTextOfLine(line, 2);
        Some(LrcTag(line[1..3], line[4..6], line[7..9], line[10..]))
      else if |line| >= 11 && IsDigit(line[9]) && line[10] == ']' && NoLineTerminator(line[11..]) then
        TagTextOfLine(line, 3);
        Some(LrcTag(line[1..3], line[4..6], line[7..10], line[11..]))
      else None
    else None
  }

  /** Cutting a line at the tag's punctuation and putting the pieces back
      together gives the line. */
  lemma TagTextOfLine(line: string, k: nat)
    requires 2 <= k <= 3 && |line| >= 8 + k
    requires line[0] == '[' && line[3] == ':' && line[6] == '.' && line[7 + k] == ']'
    ensures TagText(LrcTag(line[1..3], line[4..6], line[7..7 + k], line[8 + k..])) == line
  {
    var text := TagText(LrcTag(line[1..3], line[4..6], line[7..7 + k], line[8 + k..]));
    assert |text| == |line|;
    forall i | 0 <= i < |line| ensures text[i] == line[i] {
      if i < 3 {
      } else if i < 7 {
      } else if i < 8 + k {
      }
    }
  }

  /** The pattern accepts exactly the well-formed tags: matching the text of
      one gives it back. */
  lemma MatchTagText(t: LrcTag)
    requires WellFormedTag(t)
    ensures MatchLrcLine(TagText(t)) == Some(t)
  {
    var line := TagText(t);
    assert line[1..3] == t.minutes && line[4..6] == t.seconds;
    if |t.fraction| == 2 {
      assert line[7..9] == t.fraction && line[9] == ']' && line[10..] == t.rest;
    } else {
      assert line[7..10] == t.fraction && line[10] == ']' && line[11..] == t.rest;
      assert line[9] == t.fraction[2];
    }
  }

  /** String.prototype.padEnd(n, c). */
  function PadEnd(s: string, n: nat, c: char): (r: string)
    ensures |r| == Max(|s|, n)
    ensures r[..|s|] == s
    ensures forall i :: |s| <= i < |r| ==> r[i] == c
    decreases n - |s|
  {
    if |s| >= n then s else PadEnd(s + [c], n, c)
  }

  /** The timestamp parseLRC computes: minutes and seconds in milliseconds,
      plus ten times the fraction right-padded with '0' to three digits.
      Seconds are not range-checked. The fraction can add up to 9990 ms, so
      it may reach into the next ten seconds (see README, Findings). */
  function TagTimestamp(t: LrcTag): (ms: nat)
    requires WellFormedTag(t)
    ensures ms % 10 == 0
    ensures var whole := (DecimalValue(t.minutes) * 60 + DecimalValue(t.seconds)) * 1000;
      whole <= ms < whole + 10000
  {
    var padded := PadEnd(t.fraction, 3, '0');
    assert AllDigits(padded);
    assert Pow10(|padded|) == 1000;
    (DecimalValue(t.minutes) * 60 + DecimalValue(t.seconds)) * 1000 + DecimalValue(padded) * 10
  }

  /** A two-digit fraction hh adds 100 * hh milliseconds, a three-digit ddd
      adds 10 * ddd. */
  lemma TagTimestampValue(t: LrcTag)
    requires WellFormedTag(t)
    ensures TagTimestamp(t)
         == (DecimalValue(t.minutes) * 60 + DecimalValue(t.seconds)) * 1000
            + (if |t.fraction| == 2 then 100 * DecimalValue(t.fraction) else 10 * DecimalValue(t.fraction))
  {
    if |t.fraction| == 2 {
      assert PadEnd(t.fraction, 3, '0') == t.fraction + "0";
      AppendZeroValue(t.fraction);
    } else {
      assert PadEnd(t.fraction, 3, '0') == t.fraction;
    }
  }

  /** One line of LRC text as parseLRC treats it: a matching line with a
      non-blank remainder gives a lyric whose text is the trimmed remainder. */
  function ParseLrcLine(line: string): (r: Option<LyricLine>)
    ensures r.Some? ==> r.value.text != "" && r.value.timestamp >= 0
  {
    match MatchLrcLine(line)
    case None => None
    case Some(t) =>
      var text := Trim(t.rest);
      if text != "" then Some(LyricLine(TagTimestamp(t), text)) else None
  }

  /** A line yields a lyric if and only if it is a well-formed tag followed by
      text that is not blank; the lyric carries the tag's timestamp and the
      trimmed text. */
  lemma ParseLrcLineExact(line: string)
    ensures ParseLrcLine(line).Some?
        <==> exists t :: WellFormedTag(t) && TagText(t) == line && Trim(t.rest) != ""
    ensures ParseLrcLine(line).Some? ==>
        var t := MatchLrcLine(line).value;
        ParseLrcLine(line).value == LyricLine(TagTimestamp(t), Trim(t.rest))
  {
    if t :| WellFormedTag(t) && TagText(t) == line && Trim(t.rest) != "" {
      MatchTagText(t);
    }
  }

  /** Lines are split on '\n' only, so a line ending in '\r' (CRLF input)
      never matches the anchored pattern and is dropped. */
  lemma CarriageReturnLineDropped(line: string)
    requires |line| > 0 && line[|line| - 1] == '\r'
    ensures ParseLrcLine(line) == None
  {
  }

  /** Metadata tags such as `[ar:Artist]` and untagged lines yield nothing. */
  lemma MetadataLineDropped(line: string)
    requires |line| < 2 || !IsDigit(line[1])
    ensures ParseLrcLine(line) == None
  {
  }

  // ---------------------------------------------------------------------
  // parseLRC

  /** The lyrics the parsing loop pushes, in source order. */
  function AcceptedLines(raw: seq<string>): (r: seq<LyricLine>)
    ensures |r| <= |raw|
    ensures forall i :: 0 <= i < |r| ==> r[i].text != "" && r[i].timestamp >= 0
  {
    var r := FilterMap(raw, ParseLrcLine);
    assert forall k :: 0 <= k < |r| ==> exists i :: 0 <= i < |raw| && ParseLrcLine(raw[i]) == Some(r[k]);
    r
  }

  /** What parseLRC returns for a whole LRC text: the accepted lines,
      reordered so that timestamps never decrease. */
  function ParsedLrc(lrc: string): (r: seq<LyricLine>)
    ensures NonDecreasing(r)
    ensures |r| == |AcceptedLines(Split(lrc, '\n'))|
  {
    var accepted := AcceptedLines(Split(lrc, '\n'));
    StableSort.SortIsSorted(accepted, TimestampKey);
    StableSort.SortBy(accepted, TimestampKey)
  }

  /** The result of parseLRC is ordered by timestamp, is a permutation of the
      accepted lines, keeps lines with equal timestamps in source order, and
      has no empty text. */
  lemma ParsedLrcProperties(lrc: string)
    ensures NonDecreasing(ParsedLrc(lrc))
    ensures multiset(ParsedLrc(lrc)) == multiset(AcceptedLines(Split(lrc, '\n')))
    ensures forall k :: StableSort.WithKey(ParsedLrc(lrc), k, TimestampKey)
                     == StableSort.WithKey(AcceptedLines(Split(lrc, '\n')), k, TimestampKey)
    ensures forall l :: l in ParsedLrc(lrc) ==> l.text != "" && l.timestamp >= 0
  {
    var accepted := AcceptedLines(Split(lrc, '\n'));
    StableSort.SortIsSorted(accepted, TimestampKey);
    StableSort.SortIsPermutation(accepted, TimestampKey);
    forall k ensures StableSort.WithKey(ParsedLrc(lrc), k, TimestampKey) == StableSort.WithKey(accepted, k, TimestampKey) {
      StableSort.SortIsStable(accepted, k, TimestampKey);
    }
    forall l | l in ParsedLrc(lrc) ensures l.text != "" && l.timestamp >= 0 {
      assert l in multiset(accepted);
    }
  }

  /** parseLRC: split on '\n', push every accepted line, then sort by
      timestamp. */
  method ParseLRC(lrc: string) returns (lines: seq<LyricLine>)
    ensures lines == ParsedLrc(lrc)
    ensures NonDecreasing(lines)
    ensures forall l :: l in lines ==> l.text != "" && l.timestamp >= 0
  {
    var accepted := CollectSome(Split(lrc, '\n'), ParseLrcLine);
    lines := StableSort.SortBy(accepted, TimestampKey);
    ParsedLrcProperties(lrc);
  }

  // ---------------------------------------------------------------------
  // The fraction arithmetic (see README, Findings)

  /** As written, a two-digit fraction is read as tenths of a second too
      many: "[00:01.50]" is 6 seconds, not 1.5. */
  lemma FractionScaledTenfold(line: string)
    requires line == "[00:01.50]Hi"
    ensures ParseLrcLine(line) == Some(LyricLine(6000, "Hi"))
  {
    var t := LrcTag("00", "01", "50", "Hi");
    SampleTagText(line, t);
    SampleTimestamp(t);
    SampleTrim(t.rest);
    ParseTagText(t);
  }

  lemma SampleTagText(line: string, t: LrcTag)
    requires line == "[00:01.50]Hi" && t == LrcTag("00", "01", "50", "Hi")
    ensures WellFormedTag(t) && TagText(t) == line
  {
  }

  lemma SampleTrim(rest: string)
    requires rest == "Hi"
    ensures Trim(rest) == "Hi"
  {
    assert !IsJsWhitespace(rest[0]) && !IsJsWhitespace(rest[|rest| - 1]);
  }

  /** The text of a well-formed tag parses back to its timestamp and its
      trimmed remainder, when that is not blank. */
  lemma ParseTagText(t: LrcTag)
    requires WellFormedTag(t) && Trim(t.rest) != ""
    ensures ParseLrcLine(TagText(t)) == Some(LyricLine(TagTimestamp(t), Trim(t.rest)))
  {
    MatchTagText(t);
  }

  lemma SampleTimestamp(t: LrcTag)
    requires t == LrcTag("00", "01", "50", "Hi")
    ensures WellFormedTag(t) && TagTimestamp(t) == 6000
  {
    TagTimestampValue(t);
    TwoDigitValue("00");
    TwoDigitValue("01");
    TwoDigitValue("50");
  }

  /** The evidently intended timestamp: the fraction right-padded to three
      digits is already a number of milliseconds. */
  function IntendedTagTimestamp(t: LrcTag): (ms: nat)
    requires WellFormedTag(t)
  {
    var padded := PadEnd(t.fraction, 3, '0');
    assert AllDigits(padded);
    (DecimalValue(t.minutes) * 60 + DecimalValue(t.seconds)) * 1000 + DecimalValue(padded)
  }

  /** With the intended arithmetic the fraction stays inside its second, and a
      two-digit fraction hh means hh hundredths (10 * hh milliseconds). */
  lemma IntendedFractionWithinSecond(t: LrcTag)
    requires WellFormedTag(t)
    ensures IntendedTagTimestamp(t) / 1000 == DecimalValue(t.minutes) * 60 + DecimalValue(t.seconds)
    ensures |t.fraction| == 2 ==>
      IntendedTagTimestamp(t) == DecimalValue(t.minutes) * 60000 + DecimalValue(t.seconds) * 1000
                                 + DecimalValue(t.fraction) * 10
  {
    var padded := PadEnd(t.fraction, 3, '0');
    assert |padded| == 3 && AllDigits(padded);
    assert Pow10(3) == 1000;
    if |t.fraction| == 2 {
      assert padded == t.fraction + "0";
      AppendZeroValue(t.fraction);
    }
  }

  // ---------------------------------------------------------------------
  // fetchAndCacheLyrics and fetchAndCacheAllLyrics

  /** The lyrics cache directory public/data/lyrics: one JSON document per
      track id. */
  class LyricsCache {
    var files: map<string, SyncedLyrics>

    constructor (files: map<string, SyncedLyrics>)
      ensures this.files == files
    {
      this.files := files;
    }

    /** areLyricsCached */
    predicate IsCached(trackId: string)
      reads this
    {
      trackId in files
    }

    /** cacheLyrics: (over)writes the document of one track. */
    method Store(trackId: string, doc: SyncedLyrics)
      modifies this
      ensures files == old(files)[trackId := doc]
    {
      files := files[trackId := doc];
    }
  }

  /** The document fetchAndCacheLyrics returns (and writes), given whether the
      track was cached and what the search returned. */
  function FetchOutcome(cached: bool, track: Track, found: Option<LrclibResponse>): (r: Option<SyncedLyrics>)
    ensures r.None? <==>
      cached || found.None? || !Truthy(found.value.syncedLyrics) || ParsedLrc(found.value.syncedLyrics.value) == []
    ensures r.Some? ==>
      r.value.trackId == track.id && r.value.trackName == track.name && r.value.artistName == PrimaryArtist(track)
      && r.value.lines == ParsedLrc(found.value.syncedLyrics.value)
      && |r.value.lines| > 0 && NonDecreasing(r.value.lines)
  {
    if cached || found.None? || !Truthy(found.value.syncedLyrics) then None
    else
      var lines := ParsedLrc(found.value.syncedLyrics.value);
      if |lines| == 0 then None
      else Some(SyncedLyrics(track.id, track.name, PrimaryArtist(track), lines))
  }

  /** fetchAndCacheLyrics: returns null and writes nothing when the track is
      already cached, when the search found no synced lyrics, or when they
      parse to no line; otherwise writes and returns a document for the
      track, with its primary artist. */
  method FetchAndCacheLyrics(cache: LyricsCache, track: Track, found: Option<LrclibResponse>)
    returns (r: Option<SyncedLyrics>)
    modifies cache
    ensures r == FetchOutcome(old(cache.IsCached(track.id)), track, found)
    ensures r.None? <==>
      old(cache.IsCached(track.id)) || found.None? || !Truthy(found.value.syncedLyrics)
      || ParsedLrc(found.value.syncedLyrics.value) == []
    ensures r.Some? ==> r.value.trackId == track.id && r.value.artistName == PrimaryArtist(track)
                        && |r.value.lines| > 0 && NonDecreasing(r.value.lines)
    ensures cache.files == if r.Some? then old(cache.files)[track.id := r.value] else old(cache.files)
  {
    if cache.IsCached(track.id) {
      return None;
    }
    var artistName := PrimaryArtist(track);
    if found.None? || !Truthy(found.value.syncedLyrics) {
      return None;
    }
    var lines := ParseLRC(found.value.syncedLyrics.value);
    if |lines| == 0 {
      return None;
    }
    var doc := SyncedLyrics(track.id, track.name, artistName, lines);
    cache.Store(track.id, doc);
    r := Some(doc);
  }

  datatype BatchResult = BatchResult(files: map<string, SyncedLyrics>, success: nat, failed: nat, cached: nat)

  /** The cache and the three counters after fetchAndCacheAllLyrics has
      processed `tracks` in order; `search` is the lyrics service. */
  function BatchOutcome(files: map<string, SyncedLyrics>, tracks: seq<Track>,
                        search: Track -> Option<LrclibResponse>): (r: BatchResult)
    ensures forall id :: id in files ==> id in r.files && r.files[id] == files[id]
    ensures forall id :: id in r.files ==> id in files || exists i :: 0 <= i < |tracks| && tracks[i].id == id
  {
    if tracks == [] then BatchResult(files, 0, 0, 0)
    else BatchStep(BatchOutcome(files, tracks[..|tracks| - 1], search), tracks[|tracks| - 1], search)
  }

  /** One track of the loop: a cached track is counted, any other is fetched
      and counted as a success (and cached) or as a failure. */
  function BatchStep(before: BatchResult, t: Track, search: Track -> Option<LrclibResponse>): (r: BatchResult)
    ensures r.success + r.failed + r.cached == before.success + before.failed + before.cached + 1
    ensures forall id :: id in before.files ==> id in r.files && r.files[id] == before.files[id]
    ensures forall id :: id in r.files ==> id in before.files || id == t.id
  {
    if t.id in before.files then before.(cached := before.cached + 1)
    else
      match FetchOutcome(false, t, search(t))
      case Some(doc) =>
        UpdateAddsOneKey(before.files, t.id, doc);
        before.(files := before.files[t.id := doc], success := before.success + 1)
      case None => before.(failed := before.failed + 1)
  }

  /** Adding an absent key keeps every other entry and adds only that key. */
  lemma UpdateAddsOneKey<K, V>(m: map<K, V>, k: K, v: V)
    requires k !in m
    ensures forall key :: key in m ==> key in m[k := v] && m[k := v][key] == m[key]
    ensures forall key :: key in m[k := v] ==> key in m || key == k
  {
  }

  /** One loop step for a track that was not cached, given what
      fetchAndCacheLyrics returned for it. */
  lemma StepAfterFetch(before: BatchResult, t: Track, search: Track -> Option<LrclibResponse>,
                       result: Option<SyncedLyrics>)
    requires t.id !in before.files && result == FetchOutcome(false, t, search(t))
    ensures BatchStep(before, t, search)
         == if result.Some? then before.(files := before.files[t.id := result.value], success := before.success + 1)
            else before.(failed := before.failed + 1)
  {
    assert t.id !in before.files;
    if result.Some? {
      assert BatchStep(before, t, search).files == before.files[t.id := result.value];
    }
  }

  /** Every track is counted exactly once: as already cached, fetched, or
      failed. */
  lemma {:induction false} BatchCountsAddUp(files: map<string, SyncedLyrics>, tracks: seq<Track>,
                                            search: Track -> Option<LrclibResponse>)
    ensures var b := BatchOutcome(files, tracks, search); b.success + b.failed + b.cached == |tracks|
  {
    if tracks != [] {
      BatchCountsAddUp(files, tracks[..|tracks| - 1], search);
    }
  }

  /** Each success adds one new document to the cache and nothing else adds
      or removes one. */
  lemma {:induction false} BatchNewEntries(files: map<string, SyncedLyrics>, tracks: seq<Track>,
                                           search: Track -> Option<LrclibResponse>)
    ensures var b := BatchOutcome(files, tracks, search);
      files.Keys <= b.files.Keys && |b.files.Keys| == |files.Keys| + b.success
  {
    if tracks != [] {
      var init := tracks[..|tracks| - 1];
      BatchNewEntries(files, init, search);
      StepNewEntries(BatchOutcome(files, init, search), tracks[|tracks| - 1], search);
    }
  }

  /** One step adds a key exactly when it counts a success. */
  lemma StepNewEntries(before: BatchResult, t: Track, search: Track -> Option<LrclibResponse>)
    ensures var after := BatchStep(before, t, search);
      before.files.Keys <= after.files.Keys
      && |after.files.Keys| - |before.files.Keys| == after.success - before.success
  {
    if t.id !in before.files {
      var doc := FetchOutcome(false, t, search(t));
      if doc.Some? {
        NewKeyCardinality(before.files, t.id, doc.value);
      }
    }
  }

  lemma NewKeyCardinality(m: map<string, SyncedLyrics>, k: string, v: SyncedLyrics)
    requires k !in m
    ensures m.Keys <= m[k := v].Keys && |m[k := v].Keys| == |m.Keys| + 1
  {
    assert m[k := v].Keys == m.Keys + {k};
  }

  /** fetchAndCacheAllLyrics: visits every track in order, skipping (and
      counting) cached ones and counting each fetch as a success or a
      failure. */
  method FetchAndCacheAllLyrics(cache: LyricsCache, tracks: seq<Track>,
                                search: Track -> Option<LrclibResponse>)
    returns (successCount: nat, failedCount: nat, cachedCount: nat)
    modifies cache
    ensures BatchResult(cache.files, successCount, failedCount, cachedCount)
         == BatchOutcome(old(cache.files), tracks, search)
    ensures successCount + failedCount + cachedCount == |tracks|
  {
    successCount, failedCount, cachedCount := 0, 0, 0;
    var i := 0;
    while i < |tracks|
      invariant 0 <= i <= |tracks|
      invariant BatchResult(cache.files, successCount, failedCount, cachedCount)
             == BatchOutcome(old(cache.files), tracks[..i], search)
    {
      var track := tracks[i];
      assert tracks[..i + 1][..i] == tracks[..i];
      ghost var before := BatchResult(cache.files, successCount, failedCount, cachedCount);
      if cache.IsCached(track.id) {
        cachedCount := cachedCount + 1;
      } else {
        var result := FetchAndCacheLyrics(cache, track, search(track));
        StepAfterFetch(before, track, search, result);
        if result.Some? {
          successCount := successCount + 1;
        } else {
          failedCount := failedCount + 1;
        }
      }
      i := i + 1;
    }
    assert tracks[..|tracks|] == tracks;
    BatchCountsAddUp(old(cache.files), tracks, search);
  }
}
