/** components/PlaylistView.tsx: the persisted playback state of the local
    player and the previous/upcoming context lists. The clock (Date.now) is a
    parameter of the operations that read it; localStorage is a map from key
    to stored value; the JSON encoding is abstracted to "a serialized state or
    something that does not parse". */
module PlaylistView {
  import opened Base
  import opened PlaylistTypes

  const STORAGE_KEY: string := "playlist_playback_state"

  /** A localStorage value: a state written by JSON.stringify, or text that
      JSON.parse rejects. */
  datatype Stored = Serialized(state: PlaybackState) | Unparseable

  /** The useState initialiser: the first track, from its start, paused. */
  function DefaultState(now: int): (s: PlaybackState)
    ensures s.currentTrackIndex == 0 && s.position == 0 && !s.isPlaying && s.startTime == now
  {
    PlaybackState(0, 0, false, now)
  }

  /** The state after the load effect: a stored state that parses replaces
      the default, paused and with a fresh start time; anything else leaves
      the default. The stored index is not checked. */
  function RestoredState(storage: map<string, Stored>, now: int): (s: PlaybackState)
    ensures !s.isPlaying && s.startTime == now
  {
    if STORAGE_KEY in storage && storage[STORAGE_KEY].Serialized? then
      storage[STORAGE_KEY].state.(startTime := now, isPlaying := false)
    else DefaultState(now)
  }

  /** What the save effect writes is what the load effect reads back, up to
      the two fields the load overrides. */
  lemma PersistThenRestore(storage: map<string, Stored>, s: PlaybackState, now: int)
    ensures RestoredState(storage[STORAGE_KEY := Serialized(s)], now)
         == PlaybackState(s.currentTrackIndex, s.position, false, now)
  {
  }

  /** Without a parseable saved state the player starts at the first track,
      at position 0, paused. */
  lemma RestoreFallsBackToDefault(storage: map<string, Stored>, now: int)
    requires STORAGE_KEY !in storage || storage[STORAGE_KEY] == Unparseable
    ensures RestoredState(storage, now) == PlaybackState(0, 0, false, now)
  {
  }

  /** tracks[index], undefined (None) when the index is out of range. */
  function CurrentTrack(tracks: seq<Track>, index: int): (r: Option<Track>)
    ensures r.Some? <==> 0 <= index < |tracks|
    ensures r.Some? ==> r.value == tracks[index]
  {
    if 0 <= index < |tracks| then Some(tracks[index]) else None
  }

  /** The index after the current track ends: (index + 1) % tracks.length,
      with JavaScript's remainder. From a valid index it is the next one, or
      the first after the last. */
  function NextIndexAfterEnd(index: int, n: int): (r: int)
    requires n > 0
    ensures 0 <= index < n ==> 0 <= r < n && (r == 0 <==> index == n - 1)
    ensures 0 <= index < n - 1 ==> r == index + 1
  {
    JsRem(index + 1, n)
  }

  function EndRepeatedly(index: int, n: int, k: nat): int
    requires n > 0
  {
    if k == 0 then index else NextIndexAfterEnd(EndRepeatedly(index, n, k - 1), n)
  }

  /** Letting tracks end one after another walks the playlist circularly
      from any valid index. */
  lemma {:induction false} EndingWalksCircularly(index: int, n: int, k: nat)
    requires n > 0 && 0 <= index < n
    ensures EndRepeatedly(index, n, k) == (index + k) % n
  {
    if k > 0 {
      EndingWalksCircularly(index, n, k - 1);
      var prev := EndRepeatedly(index, n, k - 1);
      assert prev == (index + k - 1) % n;
      ModSucc(index + k - 1, n);
    }
  }

  lemma ModSucc(a: nat, n: int)
    requires n > 0
    ensures (a % n + 1) % n == (a + 1) % n
  {
    var q, r := a / n, a % n;
    if r + 1 < n {
      ModUnique(a + 1, n, q, r + 1);
      ModUnique(r + 1, n, 0, r + 1);
    } else {
      assert a + 1 == q * n + n == (q + 1) * n + 0;
      ModUnique(a + 1, n, q + 1, 0);
      ModUnique(n, n, 1, 0);
    }
  }

  /** previousTracks = tracks.slice(0, currentIndex): a prefix of the
      playlist, as long as the index when that is in range; a negative index
      counts from the end. */
  function PreviousTracks(tracks: seq<Track>, index: int): (r: seq<Track>)
    ensures |r| <= |tracks| && r == tracks[..|r|]
    ensures 0 <= index ==> |r| == Min(index, |tracks|)
    ensures index < 0 ==> |r| == Max(|tracks| + index, 0)
  {
    JsSlice(tracks, 0, index)
  }

  /** upcomingTracks: the tracks after the current one, topped up from the
      front of the playlist while fewer than two follow. Whatever the index,
      every entry is a track of the playlist and there are at least two of
      them unless the playlist is shorter. */
  function UpcomingTracks(tracks: seq<Track>, index: int): (r: seq<Track>)
    ensures |r| >= Min(2, |tracks|)
    ensures forall k :: 0 <= k < |r| ==> r[k] in tracks
  {
    var after := JsSlice(tracks, index + 1, |tracks|);
    if |after| < 2 then
      var front := JsSlice(tracks, 0, 2 - |after|);
      assert |front| == Min(2 - |after|, |tracks|);
      assert forall k :: 0 <= k < |after + front| ==> (after + front)[k] in tracks by {
        forall k | 0 <= k < |after + front| ensures (after + front)[k] in tracks {
          if k < |after| { assert (after + front)[k] == after[k]; }
          else { assert (after + front)[k] == front[k - |after|]; }
        }
      }
      after + front
    else after
  }

  /** For a valid index the previous tracks are exactly those before it. */
  lemma PreviousAreBefore(tracks: seq<Track>, index: int)
    requires 0 <= index < |tracks|
    ensures PreviousTracks(tracks, index) == tracks[..index]
  {
  }

  /** For a valid index the upcoming list continues circularly after the
      current track, and is at least two long unless the playlist is
      shorter. */
  lemma UpcomingContinueCircularly(tracks: seq<Track>, index: int)
    requires 0 <= index < |tracks|
    ensures var up := UpcomingTracks(tracks, index);
      |up| == Max(|tracks| - index - 1, Min(2, |tracks|)) &&
      forall k :: 0 <= k < |up| ==> up[k] == tracks[(index + 1 + k) % |tracks|]
  {
    var n := |tracks|;
    var up := UpcomingTracks(tracks, index);
    var after := JsSlice(tracks, index + 1, n);
    assert after == tracks[index + 1..];
    forall k | 0 <= k < |up| ensures up[k] == tracks[(index + 1 + k) % n] {
      if k < |after| {
        assert up[k] == tracks[index + 1 + k];
        ModUnique(index + 1 + k, n, 0, index + 1 + k);
      } else {
        var j := k - |after|;
        assert up[k] == tracks[j];
        assert index + 1 + k == 1 * n + j;
        ModUnique(index + 1 + k, n, 1, j);
      }
    }
  }

  /** In a playlist of one or two tracks the current track itself shows up
      among the upcoming ones. */
  lemma SmallPlaylistShowsCurrent(tracks: seq<Track>, index: int)
    requires 0 <= index < |tracks| <= 2
    ensures tracks[index] in UpcomingTracks(tracks, index)
  {
    UpcomingContinueCircularly(tracks, index);
    var n := |tracks|;
    var up := UpcomingTracks(tracks, index);
    if n == 1 {
      assert up[0] == tracks[0];
    } else {
      assert up[1] == tracks[(index + 2) % 2];
    }
  }

  // ---------------------------------------------------------------------
  // Mounting with a stale saved index (see README, Findings)

  /** localStorage after mounting. The first render uses the default state;
      with no track at all it already throws and no effect runs. Otherwise
      both effects run after the first commit, in order: the load effect
      schedules the restored state, then the save effect writes the default
      one. The render with the restored state hands tracks[index] to
      AlbumDisplay and MobilePlayerView, which read its album and id without
      a guard; it commits, and its save effect writes the restored state,
      only when the index names a track. */
  function StorageAfterMount(tracks: seq<Track>, storage: map<string, Stored>, now: int): (r: map<string, Stored>)
    ensures |tracks| == 0 ==> r == storage
    ensures |tracks| > 0 ==> r.Keys == storage.Keys + {STORAGE_KEY}
    ensures forall key :: key in storage && key != STORAGE_KEY ==> r[key] == storage[key]
    ensures |tracks| > 0 && CurrentTrack(tracks, RestoredState(storage, now).currentTrackIndex).Some?
            ==> r[STORAGE_KEY] == Serialized(RestoredState(storage, now))
    ensures |tracks| > 0 && CurrentTrack(tracks, RestoredState(storage, now).currentTrackIndex).None?
            ==> r[STORAGE_KEY] == Serialized(DefaultState(now))
  {
    var restored := RestoredState(storage, now);
    if |tracks| == 0 then storage
    else if 0 <= restored.currentTrackIndex < |tracks| then storage[STORAGE_KEY := Serialized(restored)]
    else storage[STORAGE_KEY := Serialized(DefaultState(now))]
  }

  /** As written, a saved index that no longer names a track (the playlist
      has shrunk since it was saved) is restored unchecked, so the render
      that follows has no current track and throws. The default state the
      first commit saved is what stays stored, so the next visit starts at
      the first track. */
  lemma StaleIndexBreaksRender(tracks: seq<Track>, storage: map<string, Stored>, now: int, later: int)
    requires |tracks| > 0 && STORAGE_KEY in storage && storage[STORAGE_KEY].Serialized?
    requires storage[STORAGE_KEY].state.currentTrackIndex >= |tracks|
    ensures CurrentTrack(tracks, RestoredState(storage, now).currentTrackIndex) == None
    ensures RestoredState(StorageAfterMount(tracks, storage, now), later) == DefaultState(later)
  {
  }

  /** The evidently intended restore: a saved index that does not name a
      track falls back to the default state. */
  function GuardedRestoredState(tracks: seq<Track>, storage: map<string, Stored>, now: int): (s: PlaybackState)
    ensures !s.isPlaying && s.startTime == now
    ensures |tracks| > 0 ==> CurrentTrack(tracks, s.currentTrackIndex).Some?
    ensures CurrentTrack(tracks, RestoredState(storage, now).currentTrackIndex).Some? ==> s == RestoredState(storage, now)
  {
    var restored := RestoredState(storage, now);
    if 0 <= restored.currentTrackIndex < |tracks| then restored else DefaultState(now)
  }

  /** With the guarded restore a non-empty playlist always has a current
      track: right after mounting and after any number of track ends. */
  lemma GuardedRestoreRenders(tracks: seq<Track>, storage: map<string, Stored>, now: int, k: nat)
    requires |tracks| > 0
    ensures CurrentTrack(tracks, EndRepeatedly(GuardedRestoredState(tracks, storage, now).currentTrackIndex, |tracks|, k)).Some?
  {
    var i := GuardedRestoredState(tracks, storage, now).currentTrackIndex;
    EndingWalksCircularly(i, |tracks|, k);
  }

  /** The playback state of the local player, kept in localStorage under a
      fixed key after every change. */
  class PlaybackStore {
    const tracks: seq<Track>
    var state: PlaybackState
    var hasUserInteracted: bool
    var storage: map<string, Stored>

    /** The save effect has written the current state. */
    predicate Persisted()
      reads this
    {
      STORAGE_KEY in storage && storage[STORAGE_KEY] == Serialized(state)
    }

    /** Mounting: the default state, replaced by a parseable saved one, then
        written back. */
    constructor (tracks: seq<Track>, storage: map<string, Stored>, now: int)
      ensures this.tracks == tracks
      ensures state == RestoredState(storage, now)
      ensures !hasUserInteracted
      ensures this.storage == storage[STORAGE_KEY := Serialized(state)]
      ensures Persisted()
    {
      this.tracks := tracks;
      hasUserInteracted := false;
      var s := DefaultState(now);
      if STORAGE_KEY in storage && storage[STORAGE_KEY].Serialized? {
        s := storage[STORAGE_KEY].state.(startTime := now, isPlaying := false);
      }
      state := s;
      this.storage := storage[STORAGE_KEY := Serialized(s)];
    }

    method Persist()
      modifies this
      ensures state == old(state) && hasUserInteracted == old(hasUserInteracted)
      ensures storage == old(storage)[STORAGE_KEY := Serialized(state)]
      ensures Persisted()
    {
      storage := storage[STORAGE_KEY := Serialized(state)];
    }

    /** handlePlay: only isPlaying changes. */
    method Play()
      modifies this
      ensures state == old(state).(isPlaying := true)
      ensures hasUserInteracted == old(hasUserInteracted)
      ensures storage == old(storage)[STORAGE_KEY := Serialized(state)]
    {
      state := state.(isPlaying := true);
      Persist();
    }

    /** handlePause: only isPlaying changes. */
    method Pause()
      modifies this
      ensures state == old(state).(isPlaying := false)
      ensures hasUserInteracted == old(hasUserInteracted)
      ensures storage == old(storage)[STORAGE_KEY := Serialized(state)]
    {
      state := state.(isPlaying := false);
      Persist();
    }

    /** handleProgress and onTimeUpdate: the reported position (already in
        milliseconds) overwrites the old one, backward jumps included. */
    method UpdatePosition(position: int)
      modifies this
      ensures state == old(state).(position := position)
      ensures hasUserInteracted == old(hasUserInteracted)
      ensures storage == old(storage)[STORAGE_KEY := Serialized(state)]
    {
      state := state.(position := position);
      Persist();
    }

    /** handleEnded and onEnded: move to the next track circularly, from the
        start, playing. */
    method Ended(now: int)
      requires |tracks| > 0
      modifies this
      ensures state == PlaybackState(NextIndexAfterEnd(old(state.currentTrackIndex), |tracks|), 0, true, now)
      ensures hasUserInteracted == old(hasUserInteracted)
      ensures storage == old(storage)[STORAGE_KEY := Serialized(state)]
    {
      var nextIndex := JsRem(state.currentTrackIndex + 1, |tracks|);
      state := PlaybackState(nextIndex, 0, true, now);
      Persist();
    }

    /** handleTrackSelect: the index is taken as given, not checked against
        the playlist. */
    method Select(trackIndex: int, now: int)
      modifies this
      ensures state == PlaybackState(trackIndex, 0, true, now)
      ensures hasUserInteracted == old(hasUserInteracted)
      ensures storage == old(storage)[STORAGE_KEY := Serialized(state)]
    {
      state := PlaybackState(trackIndex, 0, true, now);
      Persist();
    }

    /** handleTogglePlayback: flips isPlaying only; a toggle made while paused
        marks the first user interaction, which is never undone. */
    method Toggle()
      modifies this
      ensures state == old(state).(isPlaying := !old(state.isPlaying))
      ensures hasUserInteracted == (old(hasUserInteracted) || !old(state.isPlaying))
      ensures storage == old(storage)[STORAGE_KEY := Serialized(state)]
    {
      if !hasUserInteracted && !state.isPlaying {
        hasUserInteracted := true;
      }
      state := state.(isPlaying := !state.isPlaying);
      Persist();
    }

    /** The track being played, if the index is valid. */
    function Current(): (r: Option<Track>)
      reads this
      ensures r.Some? <==> 0 <= state.currentTrackIndex < |tracks|
    {
      CurrentTrack(tracks, state.currentTrackIndex)
    }
  }
}
