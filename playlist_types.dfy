/** The records of types/playlist.ts. Times are integer milliseconds. */
module PlaylistTypes {
  import opened Base

  datatype AlbumImage = AlbumImage(url: string, height: int, width: int)

  datatype Album = Album(name: string, images: seq<AlbumImage>)

  /** One playable song: its artists are ordered, the first is the primary
      one; the album images are ordered by descending resolution. */
  datatype Track = Track(
    id: string,
    name: string,
    artists: seq<string>,
    album: Album,
    durationMs: int,
    youtubeId: Option<string>,
    lyricsOffsetMs: Option<int>,
    uri: Option<string>,
    previewUrl: Option<string>)

  datatype LyricLine = LyricLine(timestamp: int, text: string)

  /** A lyrics document, one per track, stored as JSON. */
  datatype SyncedLyrics = SyncedLyrics(
    trackId: string,
    trackName: string,
    artistName: string,
    lines: seq<LyricLine>)

  datatype PlaybackState = PlaybackState(
    currentTrackIndex: int,
    position: int,
    isPlaying: bool,
    startTime: int)

  /** One search hit of the LRCLIB lyrics service. */
  datatype LrclibResponse = LrclibResponse(
    id: int,
    trackName: string,
    artistName: string,
    albumName: string,
    duration: int,
    plainLyrics: string,
    syncedLyrics: Option<string>)

  /** A lyrics JSON file as the maintenance scripts see it: its directory
      entry name and its parsed content. */
  datatype LyricsFile = LyricsFile(name: string, doc: SyncedLyrics)

  /** The sort key of a lyric line: its timestamp as a JavaScript number. */
  function TimestampKey(l: LyricLine): real { l.timestamp as real }

  /** Timestamps never decrease along the list. */
  predicate NonDecreasing(lines: seq<LyricLine>) {
    forall i, j :: 0 <= i < j < |lines| ==> lines[i].timestamp <= lines[j].timestamp
  }

  predicate StrictlyIncreasing(lines: seq<LyricLine>) {
    forall i, j :: 0 <= i < j < |lines| ==> lines[i].timestamp < lines[j].timestamp
  }

  /** track.artists[0]: the first listed artist. An empty artist list, where
      JavaScript yields `undefined`, gives the empty string. */
  function PrimaryArtist(t: Track): (a: string)
    ensures |t.artists| > 0 ==> a == t.artists[0] && a in t.artists
    ensures |t.artists| == 0 ==> a == ""
  {
    if |t.artists| > 0 then t.artists[0] else ""
  }

  function HasId(id: string): Track -> bool {
    (t: Track) => t.id == id
  }

  /** tracks.findIndex(t => t.id === id). */
  function TrackIndex(tracks: seq<Track>, id: string): (r: int)
    ensures -1 <= r < |tracks|
    ensures r == -1 <==> forall i :: 0 <= i < |tracks| ==> tracks[i].id != id
    ensures r >= 0 ==> tracks[r].id == id && forall i :: 0 <= i < r ==> tracks[i].id != id
  {
    var r := FirstIndex(tracks, HasId(id));
    assert forall i :: 0 <= i < |tracks| ==> (HasId(id)(tracks[i]) <==> tracks[i].id == id);
    r
  }

  /** No two tracks of the playlist share an id. */
  predicate DistinctIds(tracks: seq<Track>) {
    forall i, j :: 0 <= i < j < |tracks| ==> tracks[i].id != tracks[j].id
  }

  /** With distinct ids, looking up a track's id finds that track. */
  lemma TrackIndexOfMember(tracks: seq<Track>, i: int)
    requires DistinctIds(tracks) && 0 <= i < |tracks|
    ensures TrackIndex(tracks, tracks[i].id) == i
  {
  }
}
