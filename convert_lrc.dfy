/** scripts/convert-lrc-to-json.js and scripts/convert-monta-lrc.js: the two
    one-off converters from an LRC file to a lyrics document. Both run the
    same per-line conversion and keep the file's order; they differ only in
    the track they write and in what they print. Reading the LRC file and
    writing the JSON file are left to the caller: the content comes in as a
    string and the document to be written goes out as a value. */
module ConvertLrc {
  import opened Base
  import opened PlaylistTypes
  import Lyrics

  // ---------------------------------------------------------------------
  // parseLrcTimestamp: an unanchored search for [mm:ss.hh]

  /** `s` holds [dd:dd.dd] at position p. */
  predicate StampAt(s: string, p: nat)
    requires p + 10 <= |s|
  {
    s[p] == '[' && IsDigit(s[p + 1]) && IsDigit(s[p + 2]) && s[p + 3] == ':'
    && IsDigit(s[p + 4]) && IsDigit(s[p + 5]) && s[p + 6] == '.'
    && IsDigit(s[p + 7]) && IsDigit(s[p + 8]) && s[p + 9] == ']'
  }

  /** Two-digit minutes, seconds and hundredths, in milliseconds. */
  function Milliseconds(mm: string, ss: string, hh: string): (ms: nat)
    requires |mm| == 2 && |ss| == 2 && |hh| == 2
    requires AllDigits(mm) && AllDigits(ss) && AllDigits(hh)
    ensures ms <= 99 * 60000 + 99 * 1000 + 99 * 10
    ensures ms % 10 == 0
  {
    DecimalValue(mm) * 60000 + DecimalValue(ss) * 1000 + DecimalValue(hh) * 10
  }

  /** The value of the stamp at p. */
  function StampValue(s: string, p: nat): (ms: nat)
    requires p + 10 <= |s| && StampAt(s, p)
  {
    var mm, ss, hh := s[p + 1..p + 3], s[p + 4..p + 6], s[p + 7..p + 9];
    assert AllDigits(mm) && AllDigits(ss) && AllDigits(hh);
    Milliseconds(mm, ss, hh)
  }

  /** The leftmost position at or after p holding a stamp. */
  function FirstStampFrom(s: string, p: nat): (r: Option<nat>)
    ensures r.Some? ==>
      && p <= r.value && r.value + 10 <= |s| && StampAt(s, r.value)
      && forall q: nat :: p <= q < r.value ==> !StampAt(s, q)
    ensures r.None? ==> forall q: nat :: p <= q && q + 10 <= |s| ==> !StampAt(s, q)
    decreases |s| - p
  {
    if p + 10 > |s| then None
    else if StampAt(s, p) then Some(p)
    else FirstStampFrom(s, p + 1)
  }

  /** parseLrcTimestamp: a value below 100 minutes, or null. */
  function ParseLrcTimestamp(s: string): (r: Option<int>)
    ensures r.Some? ==> 0 <= r.value <= 99 * 60000 + 99 * 1000 + 99 * 10 && r.value % 10 == 0
  {
    match FirstStampFrom(s, 0)
    case None => None
    case Some(p) => Some(StampValue(s, p))
  }

  /** parseLrcTimestamp gives null exactly when no stamp occurs anywhere in
      `s`, and otherwise the value of the leftmost stamp. */
  lemma ParseLrcTimestampLeftmost(s: string)
    ensures ParseLrcTimestamp(s).None? <==> forall q: nat :: q + 10 <= |s| ==> !StampAt(s, q)
    ensures ParseLrcTimestamp(s).Some? ==> exists q: nat ::
      && q + 10 <= |s| && StampAt(s, q) && ParseLrcTimestamp(s).value == StampValue(s, q)
      && forall q': nat :: q' < q ==> !StampAt(s, q')
  {
    var first := FirstStampFrom(s, 0);
    if first.Some? {
      assert StampAt(s, first.value);
    }
  }

  /** The bracketed stamp the converter rebuilds from a match always parses,
      to minutes * 60000 + seconds * 1000 + hundredths * 10. */
  lemma ParseRebuiltStamp(s: string, mm: string, ss: string, hh: string)
    requires |mm| == 2 && |ss| == 2 && |hh| == 2
    requires AllDigits(mm) && AllDigits(ss) && AllDigits(hh)
    requires s == "[" + mm + ":" + ss + "." + hh + "]"
    ensures ParseLrcTimestamp(s) == Some(Milliseconds(mm, ss, hh))
  {
    assert s[1..3] == mm && s[4..6] == ss && s[7..9] == hh;
    assert StampAt(s, 0);
    assert FirstStampFrom(s, 0) == Some(0);
    assert ParseLrcTimestamp(s) == Some(StampValue(s, 0));
  }

  // ---------------------------------------------------------------------
  // One line

  /** The metadata and blank lines the forEach returns early on: only blank
      lines and bracketed tags opening with a lower-case letter. */
  function IsSkipped(line: string): (skipped: bool)
    ensures skipped ==> Trim(line) == "" || (|line| >= 4 && line[0] == '[' && 'a' <= line[1] <= 'z')
  {
    var metadata := StartsWith(line, "[ar:") || StartsWith(line, "[al:") ||
                    StartsWith(line, "[ti:") || StartsWith(line, "[id:") ||
                    StartsWith(line, "[length:");
    assert metadata ==> |line| >= 4 && line[0] == '[' && 'a' <= line[1] <= 'z' by {
      if StartsWith(line, "[length:") {
        assert line[..8][0] == line[0] && line[..8][1] == line[1];
      } else if metadata {
        assert line[..4][0] == line[0] && line[..4][1] == line[1];
      }
    }
    metadata || Trim(line) == ""
  }

  /** /^\[(\d{2}:\d{2}\.\d{2})\](.*)$/: the lyrics pattern restricted to a
      two-digit fraction. */
  function ConverterTag(line: string): (m: Option<Lyrics.LrcTag>)
    ensures m.Some? ==> Lyrics.WellFormedTag(m.value) && |m.value.fraction| == 2
                        && Lyrics.TagText(m.value) == line
  {
    var t := Lyrics.MatchLrcLine(line);
    if t.Some? && |t.value.fraction| == 2 then t else None
  }

  /** The entry one line contributes, if any. */
  function ConvertLine(line: string): (r: Option<LyricLine>)
    ensures r.Some? ==> r.value.text != "" && r.value.timestamp >= 0
  {
    if IsSkipped(line) then None
    else
      match ConverterTag(line)
      case None => None
      case Some(t) =>
        var timestamp := ParseLrcTimestamp("[" + t.minutes + ":" + t.seconds + "." + t.fraction + "]");
        var text := Trim(t.rest);
        if timestamp.Some? && timestamp.value >= 0 && text != "" then Some(LyricLine(timestamp.value, text))
        else None
  }

  /** The skip test never drops a line the pattern would accept: metadata
      tags start with a letter after '[' and a blank line has no '['. */
  lemma SkippedLinesNeverMatch(line: string)
    requires IsSkipped(line)
    ensures ConverterTag(line) == None
  {
    if Trim(line) == "" {
      if |line| > 0 {
        TrimEmptyIffBlank(line);
        assert IsJsWhitespace(line[0]);
      }
    } else {
      assert 'a' <= line[1] <= 'z';
    }
  }

  /** A converted line is a tag with a two-digit fraction and text that
      is not blank; its entry holds the tag's minutes, seconds and
      hundredths and the trimmed text. */
  lemma ConvertedLineIsTag(line: string)
    requires ConvertLine(line).Some?
    ensures ConverterTag(line).Some?
    ensures var t := ConverterTag(line).value;
      Trim(t.rest) != "" &&
      ConvertLine(line).value == LyricLine(Milliseconds(t.minutes, t.seconds, t.fraction), Trim(t.rest))
  {
    var t := ConverterTag(line).value;
    ParseRebuiltStamp("[" + t.minutes + ":" + t.seconds + "." + t.fraction + "]", t.minutes, t.seconds, t.fraction);
  }

  /** Conversely, every such tag is converted. */
  lemma TagIsConverted(t: Lyrics.LrcTag)
    requires Lyrics.WellFormedTag(t) && |t.fraction| == 2 && Trim(t.rest) != ""
    ensures ConvertLine(Lyrics.TagText(t)) == Some(LyricLine(Milliseconds(t.minutes, t.seconds, t.fraction), Trim(t.rest)))
  {
    var line := Lyrics.TagText(t);
    Lyrics.MatchTagText(t);
    if IsSkipped(line) {
      SkippedLinesNeverMatch(line);
    }
    ParseRebuiltStamp("[" + t.minutes + ":" + t.seconds + "." + t.fraction + "]", t.minutes, t.seconds, t.fraction);
  }

  /** A line is converted exactly when it is such a tag. */
  lemma ConvertLineExact(line: string)
    ensures ConvertLine(line).Some?
        <==> exists t :: Lyrics.WellFormedTag(t) && |t.fraction| == 2 && Lyrics.TagText(t) == line
                         && Trim(t.rest) != ""
  {
    if t :| Lyrics.WellFormedTag(t) && |t.fraction| == 2 && Lyrics.TagText(t) == line && Trim(t.rest) != "" {
      TagIsConverted(t);
    }
    if ConvertLine(line).Some? {
      ConvertedLineIsTag(line);
    }
  }

  /** A line with a three-digit fraction, which the lyrics parser accepts,
      is dropped by the converters. */
  lemma ThreeDigitFractionDropped(line: string)
    requires Lyrics.MatchLrcLine(line).Some? && |Lyrics.MatchLrcLine(line).value.fraction| == 3
    ensures ConvertLine(line) == None
  {
  }

  /** For a two-digit fraction hh, the lyrics parser's timestamp exceeds the
      converters' by 90 * hh milliseconds. */
  lemma ParserTimestampExceeds(t: Lyrics.LrcTag)
    requires Lyrics.WellFormedTag(t) && |t.fraction| == 2
    ensures Lyrics.TagTimestamp(t) == Milliseconds(t.minutes, t.seconds, t.fraction) + 90 * DecimalValue(t.fraction)
  {
    Lyrics.TagTimestampValue(t);
    var m, sec := DecimalValue(t.minutes), DecimalValue(t.seconds);
    assert (m * 60 + sec) * 1000 == m * 60000 + sec * 1000;
  }

  /** A two-digit fraction is worth nothing exactly when it is 00. */
  lemma ZeroFraction(hh: string)
    requires |hh| == 2 && AllDigits(hh)
    ensures DecimalValue(hh) == 0 <==> hh == "00"
  {
    TwoDigitValue(hh);
    if DecimalValue(hh) == 0 {
      assert hh == [hh[0], hh[1]];
    }
  }

  /** Every line the converters keep is also kept by the lyrics parser,
      with the same text, and the two timestamps agree exactly when the
      fraction is 00: the parser reads a two-digit fraction as tenths of a
      second padded to thousandths, the converters as hundredths. */
  lemma AgreesWithParserOnlyOnWholeSeconds(line: string)
    requires ConvertLine(line).Some?
    ensures Lyrics.ParseLrcLine(line).Some?
    ensures Lyrics.ParseLrcLine(line).value.text == ConvertLine(line).value.text
    ensures Lyrics.ParseLrcLine(line).value.timestamp - ConvertLine(line).value.timestamp
         == 90 * DecimalValue(ConverterTag(line).value.fraction)
    ensures Lyrics.ParseLrcLine(line).value.timestamp == ConvertLine(line).value.timestamp
        <==> ConverterTag(line).value.fraction == "00"
  {
    ConvertedLineIsTag(line);
    var t := ConverterTag(line).value;
    assert Lyrics.MatchLrcLine(line) == Some(t);
    assert Lyrics.ParseLrcLine(line) == Some(LyricLine(Lyrics.TagTimestamp(t), Trim(t.rest)));
    ParserTimestampExceeds(t);
    ZeroFraction(t.fraction);
  }

  // ---------------------------------------------------------------------
  // The whole file

  /** The entries pushed for the lines `raw`, in the file's order: at most
      one per line, each with text and a non-negative timestamp. */
  function Entries(raw: seq<string>): (r: seq<LyricLine>)
    ensures |r| <= |raw|
    ensures forall k :: 0 <= k < |r| ==> r[k].text != "" && r[k].timestamp >= 0
  {
    var r := FilterMap(raw, ConvertLine);
    assert forall k :: 0 <= k < |r| ==> exists i :: 0 <= i < |raw| && ConvertLine(raw[i]) == Some(r[k]);
    r
  }

  /** No sorting: the entries of two consecutive stretches of the file are
      the entries of the first followed by those of the second, and each
      entry comes from a line of the file. */
  lemma EntriesInFileOrder(a: seq<string>, b: seq<string>)
    ensures Entries(a + b) == Entries(a) + Entries(b)
    ensures forall k :: 0 <= k < |Entries(a)| ==> exists i :: 0 <= i < |a| && ConvertLine(a[i]) == Some(Entries(a)[k])
  {
    FilterMapAppend(a, b, ConvertLine);
  }

  /** The split and the forEach over the lines of the file. */
  method ConvertContent(lrcContent: string) returns (jsonLines: seq<LyricLine>)
    ensures jsonLines == Entries(Split(lrcContent, '\n'))
  {
    jsonLines := CollectSome(Split(lrcContent, '\n'), ConvertLine);
  }

  // ---------------------------------------------------------------------
  // The two scripts' outputs

  /** The document convert-lrc-to-json.js writes. With no entries it fails
      on `jsonData.lines[0]` while printing, before writing, so nothing is
      written. */
  function NeverMatterDocument(lrcContent: string): (r: Option<SyncedLyrics>)
    ensures r.None? <==> Entries(Split(lrcContent, '\n')) == []
    ensures r.Some? ==>
      && r.value.lines == Entries(Split(lrcContent, '\n'))
      && r.value.trackId == "03-never-matter-toro-y-moi"
      && r.value.trackName == "Never Matter" && r.value.artistName == "Toro y Moi"
  {
    var entries := Entries(Split(lrcContent, '\n'));
    if entries == [] then None
    else Some(SyncedLyrics("03-never-matter-toro-y-moi", "Never Matter", "Toro y Moi", entries))
  }

  /** The document convert-monta-lrc.js writes, always (its printing is
      guarded by a length check). */
  function MontaDocument(lrcContent: string): (r: SyncedLyrics)
    ensures r.lines == Entries(Split(lrcContent, '\n'))
    ensures r.trackId == "05-monta-el-trueno-illya-kuryaki-valderramas"
    ensures r.trackName == "Monta El Trueno" && r.artistName == "Illya Kuryaki & The Valderramas"
  {
    SyncedLyrics("05-monta-el-trueno-illya-kuryaki-valderramas", "Monta El Trueno",
                 "Illya Kuryaki & The Valderramas", Entries(Split(lrcContent, '\n')))
  }

  /** What convert-monta-lrc.js prints about the entries: the first and
      last timestamps when there are entries, the first ten entries, and how
      many more there are when there are over ten. */
  datatype Preview = Preview(span: Option<(int, int)>, shown: seq<LyricLine>, more: Option<nat>)

  function MontaPreview(entries: seq<LyricLine>): (p: Preview)
    ensures p.span.Some? <==> entries != []
    ensures p.span.Some? ==> p.span.value == (entries[0].timestamp, entries[|entries| - 1].timestamp)
    ensures |p.shown| == Min(10, |entries|) && p.shown == entries[..|p.shown|]
    ensures p.more.Some? <==> |entries| > 10
    ensures p.more.Some? ==> |p.shown| + p.more.value == |entries|
  {
    var span := if |entries| > 0 then Some((entries[0].timestamp, entries[|entries| - 1].timestamp)) else None;
    var shown := JsSlice(entries, 0, 10);
    var more := if |entries| > 10 then Some(|entries| - 10) else None;
    Preview(span, shown, more)
  }
}
