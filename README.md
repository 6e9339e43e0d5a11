# A verified model of the lyrics-and-playback core of "hey"

"hey" is a personal web site. Its "404" page plays a playlist with
time-synced lyrics. Around that player sit a few maintenance scripts that
import, check and repair the lyrics documents, plus some small server and
client helpers. This project models that core in Dafny and proves what the
code promises about it:

- **Lyric ingestion** (`lyrics.dfy`):
  - `parseLRC` splits an LRC text on `'\n'`, accepts `[mm:ss.xx]` and
    `[mm:ss.xxx]` lines, and stably sorts them by timestamp.
  - `fetchAndCacheLyrics` and `fetchAndCacheAllLyrics` work over a lyrics
    cache. The LRCLIB search and the cache directory are oracles: the search
    result is a parameter, the cache is a map.
- **Offline converters** (`convert_lrc.dfy`): their own two-digit timestamp
  parser, the metadata/blank line filter, and the documents the two scripts
  write.
- **Lyrics maintenance scripts**:
  - the 50 ms duplicate nudger and sorter (`fix_lyrics_timestamps.dfy`);
  - the ordering checker (`check_lyrics_order.dfy`);
  - the first-lyric checker (`check_first_lyrics.dfy`);
  - the global shift for one song (`fix_never_matter.dfy`);
  - the console-log stripper (`remove_console_logs.dfy`).
- **Line-sync resolver** (`lyrics_display.dfy`): the scan that picks the
  active lyric line for a playback position and an offset.
- **Playback state and navigation**:
  - the persisted `PlaybackState` store of the local player
    (`playlist_view.dfy`);
  - the previous/upcoming lists and click targets around the cover
    (`album_display.dfy`);
  - circular navigation, the `canRewind`/`hasEverPlayed` latches, swipes and
    the groove filter of the mobile view (`mobile_player_view.dfy`);
  - tokens, player events, track selection and the error messages of the
    Spotify-backed view (`spotify_playlist_view.dfy`).
- **Small helpers**:
  - the media file route over its hashed-name table (`media_route.dfy`);
  - media URL construction (`media_urls.dfy`);
  - the play-projects listing (`play_projects.dfy`);
  - the theme provider (`theme_provider.dfy`).

Shared pieces:

- `base.dfy`: an `Option` type and the JavaScript string and list operations
  the code uses (`split`, `join`, `trim`, `includes`, `startsWith`,
  `slice`, `findIndex`, `filter`).
- `stable_sort.dfy`: `Array.prototype.sort` with a numeric comparator, which
  is stable. It is modelled as a stable insertion sort keyed by a real
  number, with sortedness, permutation and stability proved once.
- `playlist_types.dfy`: the records of types/playlist.ts.

Times are integer milliseconds. File, network, DOM, cookie and localStorage
effects are parameters or maps. Where a handler updates state step by step,
the model is a class with those fields, and every method states its whole
new state.

Where the code departs from the design intent, the model follows the code:

- The line-sync resolver gives -1 before the first timestamp. It does not
  pre-select line 0.
- Restored and selected track indices are never checked against the
  playlist. An out-of-range index makes the current track undefined, and
  the render then throws where the cover and the mobile view read its
  album. When a mount restores such an index, the first commit's save
  effect has already stored the default state, so the next visit starts
  again from track 0. An empty playlist throws on its first render. See
  "## Findings".
- A two-digit LRC fraction is scaled ten times too high in `parseLRC`, and
  the lyrics key in `getMediaUrl` misses. See "## Findings".
- The space count of a project's display name is the folder's spaces plus
  its dashes. It equals the number of dashes only when the folder has no
  spaces.
- On a Spotify 401, the selection handler first sets the
  "Authentication expired" message. The token-expiry handler then
  overwrites it with "Session expired". The model applies both writes in
  order, so the later one is what remains.
- The Spotify view hands a `spotifyMode` prop to the playlist view. That
  prop is not among the playlist view's declared props, so the Spotify
  screen is modelled as receiving only the tracks.

## Model

| member | source | states |
|---|---|---|
| Base.JsRem | components/PlaylistView.tsx:108 | JavaScript `%`: for a non-negative dividend the remainder in [0, n), for a negative one a remainder in (-n, 0] |
| Base.JsSlice | components/PlaylistView.tsx:76-81 | slice: every element comes from the input; in-range bounds give exactly s[start..end]; an end past the length is clamped; a negative bound counts from the end; non-negative bounds give max(min(end, n) - min(start, n), 0) elements |
| Base.Trim | lib/lyrics.ts:65 | no longer than the input, neither starts nor ends with whitespace, and a string without whitespace at its ends comes back unchanged |
| Base.Split | lib/lyrics.ts:55 | at least one piece, and no piece contains the separator |
| Base.Join | scripts/remove-console-logs.js:37 | no part gives "", one part gives that part, with more parts the separator follows the first part; at least one character per gap |
| Base.FirstIndex | components/MobilePlayerView.tsx:177 | findIndex: -1 exactly when no element satisfies the predicate, otherwise one that does with none before it |
| Base.Filter | app/api/play-projects/route.ts:18-22 | at most as many elements, each from the input and satisfying the predicate, and every satisfying element kept |
| Base.CollectSome | lib/lyrics.ts:57-74 | the push loop yields, in order, exactly the values the per-line function accepts |
| StableSort.InsertBy | lib/lyrics.ts:77 | inserting one element adds exactly that element to the multiset |
| StableSort.SortBy | lib/lyrics.ts:77 | the sort keeps the length |
| StableSort.InsertSorted | lib/lyrics.ts:77 | inserting into a key-ordered list keeps it ordered |
| StableSort.SortIsSorted | lib/lyrics.ts:77 | the sorted result is non-decreasing by key |
| StableSort.SortIsPermutation | lib/lyrics.ts:77 | the sort neither drops nor duplicates an element |
| StableSort.InsertWithKey | lib/lyrics.ts:77 | insertion puts the new element after the existing ones with the same key |
| StableSort.SortIsStable | lib/lyrics.ts:77 | for every key, the elements carrying it keep their original relative order |
| StableSort.SortOfSortedIsIdentity | scripts/fix-lyrics-timestamps.js:100 | sorting an already ordered list leaves it unchanged |
| StableSort.InsertStrictlySorted | scripts/fix-lyrics-timestamps.js:100 | inserting a key not yet present into a strictly ascending list keeps it strictly ascending |
| StableSort.InsertedBelow | scripts/fix-lyrics-timestamps.js:100 | insertion never produces an element above a bound that every input respects |
| StableSort.AppendAboveStrictly | scripts/fix-lyrics-timestamps.js:100 | appending an element above all others keeps strict ascent |
| StableSort.SortIsStrictlySorted | scripts/fix-lyrics-timestamps.js:100 | pairwise distinct keys sort into a strictly ascending list |
| StableSort.FilterKeepsSorted | scripts/check-first-lyrics.js:45 | filtering a sorted list leaves it sorted |
| PlaylistTypes.TrackIndex | components/AlbumDisplay.tsx:63 | findIndex: -1 exactly when no track has the id, otherwise the first track with it |
| PlaylistTypes.PrimaryArtist | lib/lyrics.ts:108 | the first listed artist, and "" when there is none |
| PlaylistTypes.TrackIndexOfMember | components/MobilePlayerView.tsx:178 | with distinct ids, looking up a track's id finds that very track |
| Lyrics.MatchLrcLine | lib/lyrics.ts:59 | a match is a well-formed tag (2-digit minutes and seconds, 2- or 3-digit fraction) whose text is the line itself |
| Lyrics.TagTextOfLine | lib/lyrics.ts:59 | cutting a line at the tag's punctuation and joining the groups gives the line back |
| Lyrics.MatchTagText | lib/lyrics.ts:59 | the pattern accepts every well-formed tag and returns exactly its groups |
| Lyrics.PadEnd | lib/lyrics.ts:64 | padEnd keeps the string as a prefix and fills up to the target length with the pad character |
| Lyrics.TagTimestampValue | lib/lyrics.ts:62-68 | the timestamp is (mm*60+ss)*1000 plus 100*hh for a two-digit fraction or 10*ddd for a three-digit one |
| Lyrics.TagTimestamp | lib/lyrics.ts:62-68 | a multiple of 10 ms, at least the whole-seconds value (mm*60+ss)*1000 and less than 10 s beyond it |
| Lyrics.ParseLrcLine | lib/lyrics.ts:59-72 | an accepted line has non-empty text and a non-negative timestamp |
| Lyrics.ParseLrcLineExact | lib/lyrics.ts:59-72 | a line yields a lyric iff it is a well-formed tag with non-blank remainder; the lyric is the tag's timestamp and the trimmed text |
| Lyrics.CarriageReturnLineDropped | lib/lyrics.ts:55-59 | a line still ending in '\r' never matches and is dropped |
| Lyrics.MetadataLineDropped | lib/lyrics.ts:57-61 | metadata tags such as [ar:...] and untagged lines yield nothing |
| Lyrics.AcceptedLines | lib/lyrics.ts:57-74 | the pushed lines are at most the input lines, each with text and a non-negative timestamp, each from some input line |
| Lyrics.ParsedLrc | lib/lyrics.ts:53-78 | non-decreasing by timestamp, with exactly as many lines as were accepted |
| Lyrics.ParsedLrcProperties | lib/lyrics.ts:53-78 | parseLRC's result is non-decreasing, a permutation of the accepted lines, stable on equal timestamps, and every line has text |
| Lyrics.ParseLRC | lib/lyrics.ts:53-78 | the loop and sort compute the parsed lines, non-decreasing and all with text |
| Lyrics.ParseTagText | lib/lyrics.ts:59-72 | the text of a well-formed tag with non-blank remainder parses to the tag's timestamp and trimmed text |
| Lyrics.FractionScaledTenfold | lib/lyrics.ts:64-68 | "[00:01.50]Hi" parses to 6000 ms, not the 1500 ms it denotes |
| Lyrics.IntendedFractionWithinSecond | lib/lyrics.ts:64-68 | with the corrected arithmetic the fraction stays inside its second, and hh means 10*hh ms |
| Lyrics.LyricsCache.constructor | lib/lyrics.ts:83-96 | the cache starts with the given documents |
| Lyrics.LyricsCache.Store | lib/lyrics.ts:83-88 | cacheLyrics overwrites exactly the track's document |
| Lyrics.FetchOutcome | lib/lyrics.ts:101-136 | null exactly when cached, not found, without synced lyrics or parsed to no line; otherwise the track's id, name and primary artist with the parsed lines, non-empty and non-decreasing |
| Lyrics.FetchAndCacheLyrics | lib/lyrics.ts:101-136 | null and no write when cached, not found, or parsed to no lines; otherwise a written, ordered, non-empty document with the track id and primary artist |
| Lyrics.BatchStep | lib/lyrics.ts:152-164 | one track adds exactly one to the three counters together, keeps every cached document, and can add only that track's key |
| Lyrics.BatchOutcome | lib/lyrics.ts:144-164 | documents already cached are kept unchanged, and every new key belongs to one of the tracks |
| Lyrics.BatchCountsAddUp | lib/lyrics.ts:144-164 | every track is counted exactly once: success + failed + cached = number of tracks |
| Lyrics.BatchNewEntries | lib/lyrics.ts:148-164 | the cache only grows, by exactly one document per success |
| Lyrics.StepNewEntries | lib/lyrics.ts:152-164 | one loop step adds a cache key exactly when it counts a success |
| Lyrics.FetchAndCacheAllLyrics | lib/lyrics.ts:141-172 | the loop's counters and cache are the batch outcome, and the counters add up to the number of tracks |
| LyricsDisplay.CoveredPrefix | components/LyricsDisplay.tsx:26-33 | the longest prefix whose timestamps are all reached; the next line is not reached |
| LyricsDisplay.CoveredPrefixUnique | components/LyricsDisplay.tsx:26-33 | those two facts determine the prefix |
| LyricsDisplay.ActiveLine | components/LyricsDisplay.tsx:16-36 | -1 for no lyrics or no lines, otherwise an index in [-1, n-1] |
| LyricsDisplay.ResolveActiveLine | components/LyricsDisplay.tsx:16-36 | the scan with its break computes the active line |
| LyricsDisplay.OffsetInvariance | components/LyricsDisplay.tsx:23 | only position + offset matters |
| LyricsDisplay.NothingBeforeFirstLine | components/LyricsDisplay.tsx:26-33 | before the first timestamp the index is -1 |
| LyricsDisplay.SortedActiveIsLastReached | components/LyricsDisplay.tsx:26-33 | on ordered lines the index is the last line whose timestamp is reached |
| LyricsDisplay.ExactTimestampSelected | components/LyricsDisplay.tsx:28 | a position exactly on a line's timestamp reaches that line |
| LyricsDisplay.CoveredPrefixMonotone | components/LyricsDisplay.tsx:26-33 | the covered prefix never shrinks as the position grows |
| LyricsDisplay.ActiveLineMonotone | components/LyricsDisplay.tsx:26-33 | the active index never decreases as playback moves forward |
| PlaylistView.DefaultState | components/PlaylistView.tsx:22-27 | the initial state: track 0 from position 0, paused, started now |
| PlaylistView.RestoredState | components/PlaylistView.tsx:22-47 | after loading, the state is paused with a fresh start time |
| PlaylistView.PersistThenRestore | components/PlaylistView.tsx:33-52 | what the save effect writes, the load effect reads back, apart from isPlaying and startTime |
| PlaylistView.RestoreFallsBackToDefault | components/PlaylistView.tsx:22-47 | without a parseable saved state the player starts at track 0, position 0, paused |
| PlaylistView.CurrentTrack | components/PlaylistView.tsx:66 | tracks[index] exists exactly for an in-range index |
| PlaylistView.NextIndexAfterEnd | components/PlaylistView.tsx:108 | from an in-range index: in range, the following index, and 0 exactly after the last track |
| PlaylistView.EndingWalksCircularly | components/PlaylistView.tsx:107-115 | k track ends from index i reach (i+k) mod n |
| PlaylistView.PreviousTracks | components/PlaylistView.tsx:76 | a prefix of the playlist: as long as the index, capped at the length, or the length less the index's size for a negative index |
| PlaylistView.UpcomingTracks | components/PlaylistView.tsx:77-82 | whatever the index, tracks of the playlist only, and at least two unless the playlist is shorter |
| PlaylistView.PreviousAreBefore | components/PlaylistView.tsx:76 | previousTracks are exactly the tracks before the current one |
| PlaylistView.UpcomingContinueCircularly | components/PlaylistView.tsx:77-82 | upcomingTracks continue circularly after the current track |
| PlaylistView.SmallPlaylistShowsCurrent | components/PlaylistView.tsx:80-82 | with one or two tracks the current track itself is among the upcoming ones |
| PlaylistView.StorageAfterMount | components/PlaylistView.tsx:22-52 | storage after a mount: untouched for an empty playlist, whose first render throws; otherwise the restored state when its index names a track, and the default state when it does not; other keys untouched |
| PlaylistView.StaleIndexBreaksRender | components/PlaylistView.tsx:33-66 | a saved index at or past the end leaves no current track after the restore, and the next mount restores the default state |
| PlaylistView.GuardedRestoredState | components/PlaylistView.tsx:33-47 | corrected restore: paused, started now, naming a track of any non-empty playlist, and equal to the as-written restore whenever that one names a track |
| PlaylistView.GuardedRestoreRenders | components/PlaylistView.tsx:107-115 | from the corrected restore, any number of track ends leaves a current track |
| PlaylistView.PlaybackStore.constructor | components/PlaylistView.tsx:22-52 | mounting restores the saved state and writes it back |
| PlaylistView.PlaybackStore.Persist | components/PlaylistView.tsx:50-52 | the save effect writes the state under 'playlist_playback_state' |
| PlaylistView.PlaybackStore.Play | components/PlaylistView.tsx:88-90 | only isPlaying changes, to true, and is saved |
| PlaylistView.PlaybackStore.Pause | components/PlaylistView.tsx:92-94 | only isPlaying changes, to false, and is saved |
| PlaylistView.PlaybackStore.UpdatePosition | components/PlaylistView.tsx:100-105 | only the position changes, even backwards, and is saved |
| PlaylistView.PlaybackStore.Ended | components/PlaylistView.tsx:107-115 | the next index circularly, position 0, playing, fresh start time |
| PlaylistView.PlaybackStore.Select | components/PlaylistView.tsx:117-124 | the given index unchecked, position 0, playing, fresh start time |
| PlaylistView.PlaybackStore.Toggle | components/PlaylistView.tsx:126-135 | flips isPlaying only; hasUserInteracted latches on a toggle made while paused |
| PlaylistView.PlaybackStore.Current | components/PlaylistView.tsx:66 | the current track exists exactly for an in-range index |
| AlbumDisplay.CoverUrl | components/AlbumDisplay.tsx:28 | the placeholder exactly when there is no image, or the first url is empty or is the placeholder itself; any other result is the first image's url |
| AlbumDisplay.Reverse | components/AlbumDisplay.tsx:62 | reverse: same length, element k is element n-1-k |
| AlbumDisplay.PreviousEntries | components/AlbumDisplay.tsx:62-74 | at most two entries, the last previous tracks nearest first, colours by position, click index from findIndex |
| AlbumDisplay.UpcomingEntries | components/AlbumDisplay.tsx:171-184 | at most three entries in order, colour k from the palette, click index from findIndex |
| AlbumDisplay.PreviousEntriesInPlayer | components/AlbumDisplay.tsx:62-71 | in the player the previous entries are the tracks just before the current one, and a click selects exactly that track |
| AlbumDisplay.UpcomingEntriesInPlayer | components/AlbumDisplay.tsx:171-181 | the upcoming entries follow the current track circularly, and a click selects exactly that track |
| MobilePlayerView.NextIndex | components/MobilePlayerView.tsx:177-178 | always a valid index, and 0 exactly when the current track is the last one or missing |
| MobilePlayerView.PreviousIndex | components/MobilePlayerView.tsx:184-185 | -2 exactly when the current track is missing, otherwise a valid index |
| MobilePlayerView.ClassifySwipe | components/MobilePlayerView.tsx:206-220 | next exactly when offset < -50 or velocity < -500; nothing exactly when both stay within the thresholds; previous otherwise |
| MobilePlayerView.NavigationIsCircular | components/MobilePlayerView.tsx:177-188 | next is the following track and wraps to 0; previous is the one before and wraps to the last |
| MobilePlayerView.PreviousUndoesNext | components/MobilePlayerView.tsx:177-188 | previous from the next track returns to the current one |
| MobilePlayerView.MissingCurrentTrack | components/MobilePlayerView.tsx:178-186 | with the current id absent, next gives 0 but previous gives -2 |
| MobilePlayerView.SmallDragsIgnored | components/MobilePlayerView.tsx:206-221 | a drag within 50 px and 500 px/s both ways does nothing |
| MobilePlayerView.SwipeMirror | components/MobilePlayerView.tsx:206-221 | left and right are mirror images, except that a drag meeting both tests counts as next |
| MobilePlayerView.MobilePlayer.constructor | components/MobilePlayerView.tsx:78-82 | canRewind starts false; hasEverPlayed starts as isPlaying |
| MobilePlayerView.MobilePlayer.Rerender | components/MobilePlayerView.tsx:78-82 | hasEverPlayed and canRewind latch true and are never cleared |
| MobilePlayerView.MobilePlayer.NextButton | components/MobilePlayerView.tsx:177-181 | selects the next index, always in range |
| MobilePlayerView.MobilePlayer.PreviousButton | components/MobilePlayerView.tsx:183-188 | nothing until canRewind; then the previous index, which may be -2 |
| MobilePlayerView.MobilePlayer.DragEnd | components/MobilePlayerView.tsx:205-222 | a left swipe selects next; a right swipe selects previous without consulting canRewind |
| MobilePlayerView.ClampGroove | components/MobilePlayerView.tsx:266 | inside [3, 72]: the position itself when inside, 3 below and 72 above |
| MobilePlayerView.Greedy | components/MobilePlayerView.tsx:272-280 | at most the input's positions, each a full 3.5 past the starting position, and the first position kept when it clears that |
| MobilePlayerView.Grooves | components/MobilePlayerView.tsx:262-280 | at most one groove per raw position, and none below 0 |
| MobilePlayerView.ClampAll | components/MobilePlayerView.tsx:262-267 | every position is clamped to [3, 72] |
| MobilePlayerView.GreedySeparated | components/MobilePlayerView.tsx:272-280 | every kept position lies a full 3.5 past the previous one kept |
| MobilePlayerView.GroovesProperties | components/MobilePlayerView.tsx:262-280 | the drawn grooves ascend with gaps of at least 3.5, lie in [3, 72], and each is a clamped position |
| MobilePlayerView.GroovesKeepSmallest | components/MobilePlayerView.tsx:270-280 | the smallest clamped position is always drawn, first |
| MobilePlayerView.FilterGrooves | components/MobilePlayerView.tsx:272-280 | the loop computes the greedy separation filter |
| MobilePlayerView.GenerateGrooves | components/MobilePlayerView.tsx:262-280 | clamp, sort and filter give separated grooves inside [3, 72] |
| SpotifyPlaylistView.TrackUris | components/SpotifyPlaylistView.tsx:101 | one 'spotify:track:<id>' URI per track, in order |
| SpotifyPlaylistView.IndexOfUri | components/SpotifyPlaylistView.tsx:67-68 | findIndex over the URIs: -1 exactly when no track's 'spotify:track:<id>' is the URI, otherwise the first track whose is |
| SpotifyPlaylistView.IndexOfUriFindsTrack | components/SpotifyPlaylistView.tsx:68-72 | the URI of a playlist track is found at that track's position |
| SpotifyPlaylistView.SelectionError | components/SpotifyPlaylistView.tsx:134-149 | a message exactly for a thrown request or a 401, 403 or 404 status, and then one of the four fixed messages |
| SpotifyPlaylistView.SpotifyView.constructor | components/SpotifyPlaylistView.tsx:15-53 | authenticated iff both URL tokens, or both stored tokens, are present; URL tokens are stored |
| SpotifyPlaylistView.SpotifyView.AdoptTokens | components/SpotifyPlaylistView.tsx:27-53 | URL tokens win and are stored; otherwise a stored pair is adopted; otherwise nothing changes |
| SpotifyPlaylistView.SpotifyView.PlayerReady | components/SpotifyPlaylistView.tsx:55-59 | sets the device and clears the error |
| SpotifyPlaylistView.SpotifyView.PlayerStateChange | components/SpotifyPlaylistView.tsx:61-73 | a null state changes nothing; otherwise playing and position follow the SDK, and the index follows a matching URI |
| SpotifyPlaylistView.SpotifyView.TokenExpired | components/SpotifyPlaylistView.tsx:75-83 | clears both tokens and both stored entries, unauthenticates, sets the session message |
| SpotifyPlaylistView.SpotifyView.StartPlayback | components/SpotifyPlaylistView.tsx:99-108 | plays all track URIs once ready with a device and tracks; a failure sets the Premium hint |
| SpotifyPlaylistView.SpotifyView.SelectTrack | components/SpotifyPlaylistView.tsx:111-132 | a no-op without device or token; otherwise sets the index, then requests all URIs from that offset |
| SpotifyPlaylistView.SpotifyView.ApplyPlayResponse | components/SpotifyPlaylistView.tsx:134-150 | 401 ends the session, 403/404/throw set their messages, other statuses leave the error |
| SpotifyPlaylistView.SpotifyView.CurrentScreen | components/SpotifyPlaylistView.tsx:158-199 | the login screen exactly while unauthenticated |
| FixLyricsTimestamps.IndicesBefore | scripts/fix-lyrics-timestamps.js:30-35 | the positions below n carrying a timestamp, ascending |
| FixLyricsTimestamps.IndicesOf | scripts/fix-lyrics-timestamps.js:30-35 | all positions carrying a timestamp, ascending |
| FixLyricsTimestamps.OutOfOrderBefore | scripts/fix-lyrics-timestamps.js:38-45 | the positions below n whose timestamp is strictly below the previous one |
| FixLyricsTimestamps.OutOfOrder | scripts/fix-lyrics-timestamps.js:38-45 | all positions whose timestamp is strictly below the previous one |
| FixLyricsTimestamps.DuplicatedTimestamps | scripts/fix-lyrics-timestamps.js:30-50 | exactly the timestamps that two or more lines hold |
| FixLyricsTimestamps.IssueCount | scripts/fix-lyrics-timestamps.js:48-68 | a count of zero means the timestamps strictly increase |
| FixLyricsTimestamps.ChainOrdered | scripts/fix-lyrics-timestamps.js:38 | if no neighbour steps back, the whole list is non-decreasing |
| FixLyricsTimestamps.DuplicateBreaksStrictness | scripts/fix-lyrics-timestamps.js:31-35 | a shared timestamp makes the list not strictly increasing |
| FixLyricsTimestamps.NotStrictlyIncreasingHasIssue | scripts/fix-lyrics-timestamps.js:49-64 | a list that is not strictly increasing has a duplicate or a step back |
| FixLyricsTimestamps.IssuesIffNotStrictlyIncreasing | scripts/fix-lyrics-timestamps.js:49-75 | issues are found exactly when the timestamps are not strictly increasing |
| FixLyricsTimestamps.IndicesBeforeStep | scripts/fix-lyrics-timestamps.js:31-35 | one step appends i to its timestamp's list and leaves the others |
| FixLyricsTimestamps.RecordTimestamp | scripts/fix-lyrics-timestamps.js:31-35 | recording line i keeps the dictionary equal to the index lists of the first i+1 lines |
| FixLyricsTimestamps.DetectIssues | scripts/fix-lyrics-timestamps.js:26-46 | the dictionary holds exactly the timestamps present, each with all its positions; the out-of-order list is exact |
| FixLyricsTimestamps.OutOfOrderStep | scripts/fix-lyrics-timestamps.js:38-45 | one step appends i exactly when it steps back |
| FixLyricsTimestamps.GroupsComplete | scripts/fix-lyrics-timestamps.js:26-46 | after the last line the dictionary holds every timestamp with all its positions |
| FixLyricsTimestamps.FreeOffset | scripts/fix-lyrics-timestamps.js:87-89 | the least number of 50 ms steps reaching a free value; at most the number of taken values, and 0 iff the value is free |
| FixLyricsTimestamps.FreeOffsetIsLeast | scripts/fix-lyrics-timestamps.js:87-89 | every smaller number of steps lands on a taken value |
| FixLyricsTimestamps.FreeSlotOffset | scripts/fix-lyrics-timestamps.js:84-89 | the while loop terminates with 50 times the least free number of steps |
| FixLyricsTimestamps.NudgedBeforeMovesForward | scripts/fix-lyrics-timestamps.js:82-96 | after any number of iterations every processed line keeps its text and has not moved backwards |
| FixLyricsTimestamps.NudgeLine | scripts/fix-lyrics-timestamps.js:83-96 | same text, moved forward by a multiple of 50 ms onto a value no earlier line holds |
| FixLyricsTimestamps.Nudged | scripts/fix-lyrics-timestamps.js:79-97 | line for line the same texts, and no timestamp moved backwards |
| FixLyricsTimestamps.NudgeStep | scripts/fix-lyrics-timestamps.js:82-96 | line i keeps its text and moves by 50*k for the least free k, with k at most i |
| FixLyricsTimestamps.NudgedPairDistinct | scripts/fix-lyrics-timestamps.js:80-97 | after the loop no two lines share a timestamp |
| FixLyricsTimestamps.NudgedUnchangedIffFree | scripts/fix-lyrics-timestamps.js:84-96 | a line is left alone exactly when its value was still free |
| FixLyricsTimestamps.NudgeAdvance | scripts/fix-lyrics-timestamps.js:82-97 | one iteration of the nudging loop extends the nudged prefix by one line |
| FixLyricsTimestamps.NudgeDuplicates | scripts/fix-lyrics-timestamps.js:79-97 | the loop computes the nudged lines |
| FixLyricsTimestamps.Fixed | scripts/fix-lyrics-timestamps.js:79-100 | strictly increasing, and a permutation of the nudged lines |
| FixLyricsTimestamps.FixedProperties | scripts/fix-lyrics-timestamps.js:79-100 | the repaired lines are strictly increasing, have no issue left, and are the nudged lines reordered |
| FixLyricsTimestamps.CleanLinesAreFixedPoint | scripts/fix-lyrics-timestamps.js:82-100 | on strictly increasing lines, nudging and sorting change nothing |
| FixLyricsTimestamps.FixDocument | scripts/fix-lyrics-timestamps.js:26-106 | counts the issues; rewrites exactly when there are some, with the repaired lines and every other field kept |
| CheckLyricsOrder.IsFlagged | scripts/check-lyrics-order.js:21-36 | past the first line, flagged exactly when below its predecessor; the first line only when below -1 |
| CheckLyricsOrder.FlaggedBefore | scripts/check-lyrics-order.js:24-37 | the flagged positions below n: lines strictly below their predecessor, the first compared with -1 |
| CheckLyricsOrder.CheckLines | scripts/check-lyrics-order.js:20-37 | the loop flags exactly those lines and reports the document iff one is flagged |
| CheckLyricsOrder.FlaggedAreOutOfOrder | scripts/check-lyrics-order.js:27 | past the first line it flags exactly the lines the repair script counts as out of order |
| CheckLyricsOrder.ReportedIff | scripts/check-lyrics-order.js:21-47 | reported iff the timestamps ever decrease or the first is below -1 |
| CheckLyricsOrder.SortedDocumentNotReported | scripts/check-lyrics-order.js:27-47 | a non-decreasing document of non-negative timestamps is never reported |
| CheckLyricsOrder.CheckAll | scripts/check-lyrics-order.js:12-48 | the loop collects the reported documents |
| CheckLyricsOrder.Reported | scripts/check-lyrics-order.js:39-47 | at most one issue per file, each the issue of a file with an ordering problem, and every such file's issue present |
| CheckLyricsOrder.Issues | scripts/check-lyrics-order.js:42-46 | one issue record per file, in order |
| CheckLyricsOrder.ReportedInListingOrder | scripts/check-lyrics-order.js:42-46 | the report is the listing filtered to reported documents, in listing order |
| CheckFirstLyrics.RecordOf | scripts/check-first-lyrics.js:17-29 | a record exactly for a document with lines, carrying lines[0]'s timestamp and text |
| CheckFirstLyrics.Records | scripts/check-first-lyrics.js:12-30 | every record comes from a file, and every file with lines contributes its record |
| CheckFirstLyrics.CollectFirstLyrics | scripts/check-first-lyrics.js:12-33 | the push loop and the sort give the records sorted by first timestamp |
| CheckFirstLyrics.CollectedProperties | scripts/check-first-lyrics.js:33-45 | sorted ascending, a permutation of the records; suspicious iff above 30000 ms, still ascending, a subsequence |
| CheckFirstLyrics.RecordsAppend | scripts/check-first-lyrics.js:12-30 | records keep listing order across concatenation |
| FixNeverMatter.FixDocument | scripts/fix-never-matter.js:15-33 | fails on no lines; otherwise same count and fields, each timestamp max(0, t - offset) |
| FixNeverMatter.ShiftLine | scripts/fix-never-matter.js:20-30 | same text; the timestamp less the offset, or 0 when that would be negative |
| FixNeverMatter.FirstLineAt800 | scripts/fix-never-matter.js:15-22 | the first line lands at exactly 800 ms and later lines keep their distance to it |
| FixNeverMatter.ShiftKeepsOrder | scripts/fix-never-matter.js:20-30 | the shift is monotone, so order is kept |
| FixNeverMatter.FixIsIdempotent | scripts/fix-never-matter.js:15-33 | running the script twice equals running it once |
| ConvertLrc.Milliseconds | scripts/convert-lrc-to-json.js:9-13 | m*60000 + s*1000 + h*10 is a multiple of 10 below 100 minutes |
| ConvertLrc.FirstStampFrom | scripts/convert-lrc-to-json.js:6 | the leftmost [dd:dd.dd] at or after a position, or none |
| ConvertLrc.ParseLrcTimestamp | scripts/convert-lrc-to-json.js:5-14 | a value below 100 minutes and a multiple of 10, or null |
| ConvertLrc.ParseLrcTimestampLeftmost | scripts/convert-lrc-to-json.js:5-14 | null iff no stamp occurs anywhere; otherwise the value of the leftmost stamp |
| ConvertLrc.ParseRebuiltStamp | scripts/convert-monta-lrc.js:35 | the bracketed stamp rebuilt from a match always parses to its value |
| ConvertLrc.ConverterTag | scripts/convert-lrc-to-json.js:33 | a match is a well-formed tag with a two-digit fraction |
| ConvertLrc.IsSkipped | scripts/convert-lrc-to-json.js:26-28 | a skipped line is blank or opens with '[' and a lower-case letter |
| ConvertLrc.ConvertLine | scripts/convert-lrc-to-json.js:24-44 | an entry has text and a non-negative timestamp |
| ConvertLrc.SkippedLinesNeverMatch | scripts/convert-lrc-to-json.js:26-33 | metadata and blank lines would not match the pattern anyway |
| ConvertLrc.ConvertedLineIsTag | scripts/convert-monta-lrc.js:33-43 | a converted line is a two-digit tag with text, giving its value and trimmed text |
| ConvertLrc.TagIsConverted | scripts/convert-monta-lrc.js:33-43 | every two-digit tag with text is converted |
| ConvertLrc.ConvertLineExact | scripts/convert-lrc-to-json.js:33-43 | a line is converted iff it is such a tag |
| ConvertLrc.ThreeDigitFractionDropped | scripts/convert-lrc-to-json.js:33 | a three-digit fraction, which parseLRC accepts, is dropped |
| ConvertLrc.ParserTimestampExceeds | scripts/convert-lrc-to-json.js:13 | parseLRC's value exceeds the converter's by 90*hh ms |
| ConvertLrc.ZeroFraction | scripts/convert-lrc-to-json.js:13 | a two-digit fraction is worth nothing iff it is 00 |
| ConvertLrc.AgreesWithParserOnlyOnWholeSeconds | scripts/convert-lrc-to-json.js:13 | every converted line is parsed by parseLRC too, with the same text, and the same timestamp iff the fraction is 00 |
| ConvertLrc.Entries | scripts/convert-lrc-to-json.js:21-45 | at most one entry per line, each with text and a non-negative timestamp |
| ConvertLrc.EntriesInFileOrder | scripts/convert-lrc-to-json.js:47-53 | no sorting: entries of consecutive stretches concatenate, each from a line of its stretch |
| ConvertLrc.ConvertContent | scripts/convert-lrc-to-json.js:21-45 | the split and forEach compute the entries |
| ConvertLrc.NeverMatterDocument | scripts/convert-lrc-to-json.js:47-63 | fails on no entries at the unguarded lines[0]; otherwise the fixed metadata and the entries |
| ConvertLrc.MontaDocument | scripts/convert-monta-lrc.js:47-53 | always written, with the fixed metadata and the entries |
| ConvertLrc.MontaPreview | scripts/convert-monta-lrc.js:63-76 | first/last only when non-empty; at most 10 shown; the rest counted as length - 10 |
| MediaRoute.RouteFor | app/api/media/route.ts:24-42 | song, cover and lyrics go to their folder and content type (cover always image/jpeg); any other type has no route |
| MediaRoute.FilePath | app/api/media/route.ts:44 | starts with 'public/data/', ends with the file name, and is as long as the parts joined by '/' |
| MediaRoute.Get | app/api/media/route.ts:6-78 | 400 on a missing parameter, 404 on an unknown id before the type check, 400 on a bad type; a served file has the lyrics or the immutable cache header |
| MediaRoute.ServedIff | app/api/media/route.ts:11-73 | a file is served iff both parameters, a known id, a valid type, an existing file, and, for lyrics, a debug read (JSON.parse, then `content.lines?.slice(0, 3)`) that does not throw; it is served as is |
| MediaRoute.FileErrors | app/api/media/route.ts:52-77 | an absent mapped file gives 404; lyrics on which the debug read throws give 500 |
| MediaUrls.MediaUrlTable | lib/media-urls.ts:11-27 | the table always has the keys songs, covers and lyrics |
| MediaUrls.Lookup | lib/media-urls.ts:35 | a missing key prints as "undefined" |
| MediaUrls.GetMediaUrl | lib/media-urls.ts:30-46 | in production without a file name the URL is empty |
| MediaUrls.SongsAndCoversResolve | lib/media-urls.ts:30-46 | songs and covers resolve to their base followed by the id or the file name |
| MediaUrls.LyricsKeyMisses | lib/media-urls.ts:35-45 | for lyrics the key 'lyricss' misses and the URL starts with "undefined" |
| MediaUrls.UrlKey | lib/media-urls.ts:14-25 | the intended key is present in both tables |
| MediaUrls.IntendedMediaUrl | lib/media-urls.ts:39-42 | with the corrected key, production without a file name still gives "" |
| MediaUrls.IntendedUrlResolves | lib/media-urls.ts:30-46 | with the corrected key every type resolves to its own route or folder, and songs and covers are unchanged |
| MediaUrls.IntendedKeyAgrees | lib/media-urls.ts:35 | the corrected key equals type + 's' for songs and covers |
| PlayProjects.ToUpper | app/api/play-projects/route.ts:27 | upper-casing neither creates nor removes a space |
| PlayProjects.Capitalize | app/api/play-projects/route.ts:27 | capitalising keeps the word's length |
| PlayProjects.Titled | app/api/play-projects/route.ts:25-28 | character by character: '-' becomes ' ', a word's first character is upper-cased, the rest kept |
| PlayProjects.TitledIsJoin | app/api/play-projects/route.ts:25-28 | the split-map-join chain equals that character-wise description |
| PlayProjects.DisplayName | app/api/play-projects/route.ts:25-28 | as long as the folder; a space exactly where the folder has a space or a dash; a character not opening a dash-separated word is kept |
| PlayProjects.DisplayNameIsTitled | app/api/play-projects/route.ts:25-28 | the display name is the folder titled character by character |
| PlayProjects.DisplayNameSpaces | app/api/play-projects/route.ts:25-28 | same length as the folder; spaces = folder spaces + folder dashes |
| PlayProjects.ProjectOf | app/api/play-projects/route.ts:30-34 | id is the folder and path is '/play/' + folder |
| PlayProjects.ProjectsOf | app/api/play-projects/route.ts:23-35 | one project per folder, in order |
| PlayProjects.GetProjects | app/api/play-projects/route.ts:5-43 | missing directory: empty list; a throw: empty list with the error |
| PlayProjects.Folders | app/api/play-projects/route.ts:18-22 | at most one name per entry, each the name of a directory entry |
| PlayProjects.FoldersAreDirectories | app/api/play-projects/route.ts:18-22 | exactly the directory entries become folders |
| PlayProjects.ListedProjects | app/api/play-projects/route.ts:18-38 | one project per sub-directory, a permutation sorted by name rank, no error |
| ThemeProvider.ThemeForOs | components/ThemeProvider.tsx:32-33 | 'dark' iff the OS prefers dark |
| ThemeProvider.InitialTheme | components/ThemeProvider.tsx:24-36 | a saved cookie wins, unchecked; otherwise the OS decides |
| ThemeProvider.Toggled | components/ThemeProvider.tsx:60 | the result is light or dark, and dark iff the theme was light |
| ThemeProvider.ToggleTwice | components/ThemeProvider.tsx:60 | toggling twice restores a valid theme and settles an invalid one on dark |
| ThemeProvider.ThemeStore.constructor | components/ThemeProvider.tsx:18-19 | 'light' and unmounted before the mount effect |
| ThemeProvider.ThemeStore.Mount | components/ThemeProvider.tsx:22-39 | the initial theme goes to the state and the data-theme attribute |
| ThemeProvider.ThemeStore.OsChange | components/ThemeProvider.tsx:42-57 | an OS change applies only after mount and while no cookie is saved |
| ThemeProvider.ThemeStore.Toggle | components/ThemeProvider.tsx:59-67 | flips the theme and writes it to the cookie and the attribute, so a cookie now exists |
| ThemeProvider.UseTheme | components/ThemeProvider.tsx:76-82 | an error exactly outside a provider, otherwise the context |
| RemoveConsoleLogs.FilterSplitsCount | scripts/remove-console-logs.js:25-34 | kept lines plus dropped lines make up all lines |
| RemoveConsoleLogs.CleanLines | scripts/remove-console-logs.js:21-34 | the kept lines in order, and removedCount + kept = all lines |
| RemoveConsoleLogs.Cleaned | scripts/remove-console-logs.js:21-37 | a file none of whose lines contains 'console.log' is left exactly as it is |
| RemoveConsoleLogs.CleanedHasNoConsoleLog | scripts/remove-console-logs.js:28-37 | no line of the cleaned file contains 'console.log' |
| RemoveConsoleLogs.FilterAllKept | scripts/remove-console-logs.js:28-33 | a filter keeping as many lines as given keeps them all |
| RemoveConsoleLogs.CleanedIsIdempotent | scripts/remove-console-logs.js:28-37 | cleaning the output again changes nothing |
| RemoveConsoleLogs.CleanFile | scripts/remove-console-logs.js:20-41 | rewritten with the kept lines only when a line was dropped |
| RemoveConsoleLogs.CleanEach | scripts/remove-console-logs.js:12-42 | the forEach cleans exactly the listed files that exist and leaves every other file untouched |
| RemoveConsoleLogs.CleanFiles | scripts/remove-console-logs.js:5-42 | the four files are cleaned, missing ones skipped, all other files untouched |

## Left out

- JSON.parse and JSON.stringify are not modelled. A stored playback state is a value that either parses or does not. Whether the media route's debug read of a lyrics file throws is a parameter of the route.
- String.prototype.localeCompare is not modelled. It is a rank function on names, so equal ranks keep listing order, as a stable sort does.
- String.prototype.toUpperCase covers ASCII letters only.
- The network and the file system are not modelled:
  - the LRCLIB search is a parameter;
  - the lyrics cache and the public data directory are maps;
  - the Spotify Web API and the Web Playback SDK answers are parameters;
  - the Spotify token refresh is not part of this model;
  - a read that throws for a reason other than a missing file is not modelled.
- localStorage and cookies are maps or optional values. The cookie's 365-day expiry is not modelled.
- `process.cwd()` is omitted from file paths, and the paths are relative to it.
- The 500 ms delay between fetches is not modelled, nor the console output and its toFixed formatting.
- The directory drivers of the scripts are not modelled. The documents come in as a sequence in listing order, and JSON parsing of them is assumed to succeed.
- The running `totalIssues` sum across files in fix-lyrics-timestamps.js is not modelled. FixDocument returns each file's count.
- The `data.lines &&` guard in check-first-lyrics.js is not modelled. A document always has a lines field.
- mediaMapping is modelled as a Dafny map. Keys inherited from Object.prototype (such as "constructor"), which the JavaScript lookup would also find, are not modelled.
- Floating point is not modelled:
  - positions are integer milliseconds;
  - the seconds-to-milliseconds conversion of the player's progress events is not modelled, and the position arrives in milliseconds;
  - Math.round in the LRCLIB search is not modelled;
  - swipe offsets and velocities and groove positions are reals;
  - the Math.sin jitter of the grooves is not modelled, and the jittered positions are inputs.
- Animation timers, the vinyl show/hide choreography and the lyrics auto-scroll effect are not modelled.
- PlaylistView.PlaybackStore.Ended: requires a non-empty playlist. An empty playlist already throws on its first render, where tracks[0] is undefined, so the handler is never reached; JavaScript would compute `% 0` as NaN.
- MobilePlayerView.MobilePlayer.constructor: requires a non-empty playlist. The view is rendered with tracks[index], which an empty playlist lacks, so that render throws before the view exists.
- PlaylistView.PlaybackStore.constructor: models a mount whose render completes, and so writes the restored state back. A restored index that names no track makes the render throw instead; that mount is modelled by PlaylistView.StorageAfterMount and StaleIndexBreaksRender.
- AlbumDisplay.CoverUrl: takes a track that exists. PlaylistView passes tracks[index] unchecked (components/PlaylistView.tsx:202-223), and for a missing track components/AlbumDisplay.tsx:28 and components/MobilePlayerView.tsx:24 throw on reading its album; the throw is stated by PlaylistView.StaleIndexBreaksRender, not by a cover value.
- PlaylistTypes.PrimaryArtist: an empty artist list gives "" where JavaScript gives undefined. JSON.stringify then leaves the artistName field out of the written document, which this model does not tell apart from an empty name.
- MediaRoute.Get: does not state that a cover's content type is image/jpeg whatever the extension. RouteFor states it.
- MediaRoute.Get: does not decide which lyrics texts make the debug read throw. That parameter must be false for text that is not JSON, for the document `null`, and for a `lines` value that is a string, number, boolean or plain object (`{"lines":"abc"}`, `{"lines":5}`); the handler answers 500 for all of them.
- PlaylistView.RestoredState: a saved state that parses is taken as a whole PlaybackState. Extra or missing fields of arbitrary JSON are not modelled.

## Findings

| source | as written | input that shows it | evidently intended | confidence | as-written member | corrected member |
|---|---|---|---|---|---|---|
| lib/lyrics.ts:64-68 | the fraction is right-padded to three digits, which already makes it milliseconds, and then multiplied by 10 again | "[00:01.50]Hi" gives 6000 ms instead of 1500 ms | add the padded fraction as milliseconds, so hh means 10*hh ms | high (not executed) | Lyrics.FractionScaledTenfold | Lyrics.IntendedFractionWithinSecond |
| lib/media-urls.ts:35,45 | the key is `type + 's'`, which for 'lyrics' is 'lyricss', a key the table lacks | getMediaUrl('lyrics', 'x') in development gives "undefinedx" | look up 'lyrics' for the lyrics type | high (not executed) | MediaUrls.LyricsKeyMisses | MediaUrls.IntendedUrlResolves |
| components/PlaylistView.tsx:33-47 | the restored currentTrackIndex is never compared with the playlist length, and tracks[index] goes unguarded to AlbumDisplay and MobilePlayerView (lines 202-223), which read its album | a saved currentTrackIndex of 3 with a playlist of 3 tracks: the render after the load effect throws | restore only an index that names a track, otherwise start from track 0 | medium (not executed) | PlaylistView.StaleIndexBreaksRender | PlaylistView.GuardedRestoreRenders |
