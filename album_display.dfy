/** components/AlbumDisplay.tsx: the track lists around the cover (up to two
    previous tracks, up to three upcoming ones), the index each entry selects
    when clicked, the entry colours, and the cover image fallback. */
module AlbumDisplay {
  import opened Base
  import opened PlaylistTypes
  import PlaylistView

  const PLACEHOLDER_COVER: string := "/images/placeholder-album.png"
  const NEAREST_PREVIOUS_COLOR: string := "#d0d0d0"
  const OLDER_PREVIOUS_COLOR: string := "#a0a0a0"
  const UPCOMING_COLORS: seq<string> := ["#a0a0a0", "#d0d0d0", "#e6e6e6"]

  /** One line of a track list: the track, its colour, and the index passed
      to onTrackSelect when it is clicked. */
  datatype Entry = Entry(track: Track, color: string, selectIndex: int)

  /** The url of the first album image, unless there is none or it is empty
      (both falsy in JavaScript). The mobile view uses the same rule. */
  function CoverUrl(track: Track): (url: string)
    ensures url == PLACEHOLDER_COVER
        <==> |track.album.images| == 0 || track.album.images[0].url in {"", PLACEHOLDER_COVER}
    ensures url != PLACEHOLDER_COVER ==> url == track.album.images[0].url
  {
    if |track.album.images| > 0 && track.album.images[0].url != "" then track.album.images[0].url
    else PLACEHOLDER_COVER
  }

  function Reverse<T>(s: seq<T>): (r: seq<T>)
    ensures |r| == |s|
    ensures forall k :: 0 <= k < |s| ==> r[k] == s[|s| - 1 - k]
  {
    if s == [] then [] else Reverse(s[1..]) + [s[0]]
  }

  /** previousTracks.slice(-2).reverse().map(...) */
  function PreviousEntries(previousTracks: seq<Track>, allTracks: seq<Track>): (r: seq<Entry>)
    ensures |r| == Min(2, |previousTracks|)
    ensures forall k :: 0 <= k < |r| ==>
      r[k].track == previousTracks[|previousTracks| - 1 - k] &&
      r[k].color == (if k == 0 then NEAREST_PREVIOUS_COLOR else OLDER_PREVIOUS_COLOR) &&
      r[k].selectIndex == TrackIndex(allTracks, r[k].track.id)
  {
    var shown := Reverse(JsSlice(previousTracks, -2, |previousTracks|));
    seq(|shown|, k requires 0 <= k < |shown| =>
      Entry(shown[k], if k == 0 then NEAREST_PREVIOUS_COLOR else OLDER_PREVIOUS_COLOR,
            TrackIndex(allTracks, shown[k].id)))
  }

  /** upcomingTracks.slice(0, 3).map(...) */
  function UpcomingEntries(upcomingTracks: seq<Track>, allTracks: seq<Track>): (r: seq<Entry>)
    ensures |r| == Min(3, |upcomingTracks|)
    ensures forall k :: 0 <= k < |r| ==>
      r[k].track == upcomingTracks[k] && r[k].color == UPCOMING_COLORS[k] &&
      r[k].selectIndex == TrackIndex(allTracks, r[k].track.id)
  {
    var shown := JsSlice(upcomingTracks, 0, 3);
    seq(|shown|, k requires 0 <= k < |shown| =>
      Entry(shown[k], UPCOMING_COLORS[k], TrackIndex(allTracks, shown[k].id)))
  }

  /** In the player, the previous entries are the tracks just before the
      current one, nearest first, and clicking one selects exactly it. */
  lemma PreviousEntriesInPlayer(tracks: seq<Track>, index: int)
    requires DistinctIds(tracks) && 0 <= index < |tracks|
    ensures var r := PreviousEntries(PlaylistView.PreviousTracks(tracks, index), tracks);
      |r| == Min(2, index) &&
      forall k :: 0 <= k < |r| ==> r[k].track == tracks[index - 1 - k] && r[k].selectIndex == index - 1 - k
  {
    PlaylistView.PreviousAreBefore(tracks, index);
    var r := PreviousEntries(PlaylistView.PreviousTracks(tracks, index), tracks);
    forall k | 0 <= k < |r| ensures r[k].track == tracks[index - 1 - k] && r[k].selectIndex == index - 1 - k {
      TrackIndexOfMember(tracks, index - 1 - k);
    }
  }

  /** In the player, the upcoming entries follow the current track
      circularly, and clicking one selects exactly it. */
  lemma UpcomingEntriesInPlayer(tracks: seq<Track>, index: int)
    requires DistinctIds(tracks) && 0 <= index < |tracks|
    ensures var r := UpcomingEntries(PlaylistView.UpcomingTracks(tracks, index), tracks);
      forall k :: 0 <= k < |r| ==>
        r[k].track == tracks[(index + 1 + k) % |tracks|] && r[k].selectIndex == (index + 1 + k) % |tracks|
  {
    PlaylistView.UpcomingContinueCircularly(tracks, index);
    var r := UpcomingEntries(PlaylistView.UpcomingTracks(tracks, index), tracks);
    forall k | 0 <= k < |r|
      ensures r[k].track == tracks[(index + 1 + k) % |tracks|] && r[k].selectIndex == (index + 1 + k) % |tracks|
    {
      TrackIndexOfMember(tracks, (index + 1 + k) % |tracks|);
    }
  }
}
