/** components/SpotifyPlaylistView.tsx: the Spotify-backed player's state:
    OAuth tokens (from the URL or localStorage), the device, the playback
    state reported by the Web Playback SDK, and the error shown on the login
    screen. The SDK, the Web API and the URL are oracles: their answers are
    parameters; localStorage is a map from key to string. The asynchronous
    track selection is split at its await: SelectTrack builds the request,
    ApplyPlayResponse applies its outcome. */
module SpotifyPlaylistView {
  import opened Base
  import opened PlaylistTypes

  const ACCESS_TOKEN_KEY: string := "spotify_access_token"
  const REFRESH_TOKEN_KEY: string := "spotify_refresh_token"
  const TRACK_URI_PREFIX: string := "spotify:track:"

  const AUTH_EXPIRED_MESSAGE: string := "Authentication expired. Please login again."
  const SESSION_EXPIRED_MESSAGE: string := "Session expired. Please login again."
  const PREMIUM_REQUIRED_MESSAGE: string := "Spotify Premium is required for playback."
  const DEVICE_NOT_FOUND_MESSAGE: string := "Playback device not found. Please try refreshing."
  const PLAY_FAILED_MESSAGE: string := "Failed to play track. Please try again."
  const START_FAILED_MESSAGE: string := "Failed to start playback. Please check your Premium account status."

  /** The fields of a Web Playback SDK state the view reads. */
  datatype PlayerState = PlayerState(paused: bool, position: int, currentUri: string)

  /** PUT /v1/me/player/play?device_id=..., with its bearer token and body. */
  datatype PlayRequest = PlayRequest(deviceId: string, accessToken: string, uris: seq<string>, offsetPosition: int)

  /** The outcome of the fetch: an HTTP status, or a thrown error. */
  datatype PlayResponse = Responded(status: int) | Failed

  /** What is rendered: the login screen with the current error, or the
      playlist view, which receives only the tracks (the Spotify playback
      state it is also handed is not among its declared props). */
  datatype Screen = LoginScreen(error: Option<string>) | PlaylistScreen(tracks: seq<Track>)

  function TrackUri(id: string): string {
    TRACK_URI_PREFIX + id
  }

  function TrackUris(tracks: seq<Track>): (uris: seq<string>)
    ensures |uris| == |tracks|
    ensures forall k :: 0 <= k < |tracks| ==> uris[k] == TrackUri(tracks[k].id)
  {
    seq(|tracks|, k requires 0 <= k < |tracks| => TrackUri(tracks[k].id))
  }

  function UriMatches(uri: string): Track -> bool {
    (t: Track) => TrackUri(t.id) == uri
  }

  /** tracks.findIndex(t => `spotify:track:${t.id}` === uri): the first
      track with that URI, or -1 when none has it. */
  function IndexOfUri(tracks: seq<Track>, uri: string): (r: int)
    ensures -1 <= r < |tracks|
    ensures r == -1 <==> forall i :: 0 <= i < |tracks| ==> TrackUri(tracks[i].id) != uri
    ensures r >= 0 ==> TrackUri(tracks[r].id) == uri && forall i :: 0 <= i < r ==> TrackUri(tracks[i].id) != uri
  {
    var r := FirstIndex(tracks, UriMatches(uri));
    assert forall i :: 0 <= i < |tracks| ==> (UriMatches(uri)(tracks[i]) <==> TrackUri(tracks[i].id) == uri);
    r
  }

  /** Track URIs are distinct for distinct ids, so the URI of a playlist
      track is found at that track's position. */
  lemma IndexOfUriFindsTrack(tracks: seq<Track>, j: int)
    requires DistinctIds(tracks) && 0 <= j < |tracks|
    ensures IndexOfUri(tracks, TrackUri(tracks[j].id)) == j
  {
    var uri := TrackUri(tracks[j].id);
    assert UriMatches(uri)(tracks[j]);
    forall i | 0 <= i < j ensures !UriMatches(uri)(tracks[i]) {
      assert TrackUri(tracks[i].id)[|TRACK_URI_PREFIX|..] == tracks[i].id;
      assert uri[|TRACK_URI_PREFIX|..] == tracks[j].id;
    }
  }

  /** The error message the selection handler sets for an outcome, before
      the token-expiry handler runs on a 401. Only a thrown error and the
      statuses 401, 403 and 404 produce a message; any other status,
      successful or not, is silent. */
  function SelectionError(response: PlayResponse): (r: Option<string>)
    ensures r.Some? <==> response.Failed? || response.status in {401, 403, 404}
    ensures r.Some? ==> r.value in {AUTH_EXPIRED_MESSAGE, PREMIUM_REQUIRED_MESSAGE, DEVICE_NOT_FOUND_MESSAGE, PLAY_FAILED_MESSAGE}
  {
    match response
    case Failed => Some(PLAY_FAILED_MESSAGE)
    case Responded(status) =>
      if 200 <= status <= 299 then None
      else if status == 401 then Some(AUTH_EXPIRED_MESSAGE)
      else if status == 403 then Some(PREMIUM_REQUIRED_MESSAGE)
      else if status == 404 then Some(DEVICE_NOT_FOUND_MESSAGE)
      else None
  }

  class SpotifyView {
    const tracks: seq<Track>
    var accessToken: Option<string>
    var refreshToken: Option<string>
    var isAuthenticated: bool
    var deviceId: Option<string>
    var currentTrackIndex: int
    var position: int
    var isPlaying: bool
    var error: Option<string>
    var storage: map<string, string>

    function Stored(key: string): Option<string>
      reads this
    {
      if key in storage then Some(storage[key]) else None
    }

    /** Mounting: the initial state, then the token effect on the URL's
        access_token and refresh_token parameters. */
    constructor (tracks: seq<Track>, storage: map<string, string>,
                 urlToken: Option<string>, urlRefresh: Option<string>)
      ensures this.tracks == tracks
      ensures deviceId == None && currentTrackIndex == 0 && position == 0 && !isPlaying && error == None
      ensures Truthy(urlToken) && Truthy(urlRefresh) ==>
        accessToken == urlToken && refreshToken == urlRefresh && isAuthenticated &&
        this.storage == storage[ACCESS_TOKEN_KEY := urlToken.value][REFRESH_TOKEN_KEY := urlRefresh.value]
      ensures !(Truthy(urlToken) && Truthy(urlRefresh)) ==> this.storage == storage
      ensures isAuthenticated <==> accessToken.Some? && refreshToken.Some?
      ensures isAuthenticated <==>
        (Truthy(urlToken) && Truthy(urlRefresh)) ||
        (ACCESS_TOKEN_KEY in storage && storage[ACCESS_TOKEN_KEY] != "" &&
         REFRESH_TOKEN_KEY in storage && storage[REFRESH_TOKEN_KEY] != "")
    {
      this.tracks := tracks;
      accessToken := None;
      refreshToken := None;
      isAuthenticated := false;
      deviceId := None;
      currentTrackIndex := 0;
      position := 0;
      isPlaying := false;
      error := None;
      this.storage := storage;
      new;
      AdoptTokens(urlToken, urlRefresh);
    }

    /** The token effect: URL tokens win when both are present and are
        stored; otherwise a stored pair is adopted when both are present;
        otherwise nothing changes. */
    method AdoptTokens(urlToken: Option<string>, urlRefresh: Option<string>)
      modifies this
      ensures deviceId == old(deviceId) && currentTrackIndex == old(currentTrackIndex)
      ensures position == old(position) && isPlaying == old(isPlaying) && error == old(error)
      ensures Truthy(urlToken) && Truthy(urlRefresh) ==>
        accessToken == urlToken && refreshToken == urlRefresh && isAuthenticated &&
        storage == old(storage)[ACCESS_TOKEN_KEY := urlToken.value][REFRESH_TOKEN_KEY := urlRefresh.value]
      ensures !(Truthy(urlToken) && Truthy(urlRefresh)) ==> storage == old(storage)
      ensures !(Truthy(urlToken) && Truthy(urlRefresh)) &&
              Truthy(old(Stored(ACCESS_TOKEN_KEY))) && Truthy(old(Stored(REFRESH_TOKEN_KEY))) ==>
        accessToken == old(Stored(ACCESS_TOKEN_KEY)) && refreshToken == old(Stored(REFRESH_TOKEN_KEY)) &&
        isAuthenticated
      ensures !(Truthy(urlToken) && Truthy(urlRefresh)) &&
              !(Truthy(old(Stored(ACCESS_TOKEN_KEY))) && Truthy(old(Stored(REFRESH_TOKEN_KEY)))) ==>
        accessToken == old(accessToken) && refreshToken == old(refreshToken) &&
        isAuthenticated == old(isAuthenticated)
    {
      if Truthy(urlToken) && Truthy(urlRefresh) {
        accessToken := urlToken;
        refreshToken := urlRefresh;
        isAuthenticated := true;
        storage := storage[ACCESS_TOKEN_KEY := urlToken.value];
        storage := storage[REFRESH_TOKEN_KEY := urlRefresh.value];
      } else {
        var storedToken := Stored(ACCESS_TOKEN_KEY);
        var storedRefresh := Stored(REFRESH_TOKEN_KEY);
        if Truthy(storedToken) && Truthy(storedRefresh) {
          accessToken := storedToken;
          refreshToken := storedRefresh;
          isAuthenticated := true;
        }
      }
    }

    /** handlePlayerReady */
    method PlayerReady(id: string)
      modifies this
      ensures deviceId == Some(id) && error == None
      ensures accessToken == old(accessToken) && refreshToken == old(refreshToken)
      ensures isAuthenticated == old(isAuthenticated) && storage == old(storage)
      ensures currentTrackIndex == old(currentTrackIndex) && position == old(position)
      ensures isPlaying == old(isPlaying)
    {
      deviceId := Some(id);
      error := None;
    }

    /** handlePlayerStateChange: a null state changes nothing; otherwise the
        playing flag and position follow the SDK, and the index follows the
        current URI when it names a playlist track. */
    method PlayerStateChange(state: Option<PlayerState>)
      modifies this
      ensures state.None? ==>
        isPlaying == old(isPlaying) && position == old(position) && currentTrackIndex == old(currentTrackIndex)
      ensures state.Some? ==> isPlaying == !state.value.paused && position == state.value.position
      ensures state.Some? ==>
        var i := IndexOfUri(tracks, state.value.currentUri);
        currentTrackIndex == if i == -1 then old(currentTrackIndex) else i
      ensures accessToken == old(accessToken) && refreshToken == old(refreshToken)
      ensures isAuthenticated == old(isAuthenticated) && storage == old(storage)
      ensures deviceId == old(deviceId) && error == old(error)
    {
      if state.None? {
        return;
      }
      isPlaying := !state.value.paused;
      position := state.value.position;
      var trackIndex := IndexOfUri(tracks, state.value.currentUri);
      if trackIndex != -1 {
        currentTrackIndex := trackIndex;
      }
    }

    /** handleTokenExpired */
    method TokenExpired()
      modifies this
      ensures accessToken == None && refreshToken == None && !isAuthenticated
      ensures storage == old(storage) - {ACCESS_TOKEN_KEY, REFRESH_TOKEN_KEY}
      ensures error == Some(SESSION_EXPIRED_MESSAGE)
      ensures deviceId == old(deviceId) && currentTrackIndex == old(currentTrackIndex)
      ensures position == old(position) && isPlaying == old(isPlaying)
    {
      accessToken := None;
      refreshToken := None;
      isAuthenticated := false;
      storage := storage - {ACCESS_TOKEN_KEY};
      storage := storage - {REFRESH_TOKEN_KEY};
      error := Some(SESSION_EXPIRED_MESSAGE);
    }

    /** The start-playback effect: once the player is ready with a device,
        all track URIs are sent; a rejected start sets the Premium hint. */
    method StartPlayback(isReady: bool, startFails: bool) returns (uris: Option<seq<string>>)
      modifies this
      ensures uris.Some? <==> isReady && Truthy(deviceId) && |tracks| > 0
      ensures uris.Some? ==> uris.value == TrackUris(tracks)
      ensures error == if uris.Some? && startFails then Some(START_FAILED_MESSAGE) else old(error)
      ensures accessToken == old(accessToken) && refreshToken == old(refreshToken)
      ensures isAuthenticated == old(isAuthenticated) && storage == old(storage)
      ensures deviceId == old(deviceId) && currentTrackIndex == old(currentTrackIndex)
      ensures position == old(position) && isPlaying == old(isPlaying)
    {
      uris := None;
      if isReady && Truthy(deviceId) && |tracks| > 0 {
        uris := Some(TrackUris(tracks));
        if startFails {
          error := Some(START_FAILED_MESSAGE);
        }
      }
    }

    /** handleTrackSelect up to the request: without a device or a token
        nothing happens; otherwise the index is set first (unchecked) and the
        request plays the whole playlist from that offset. */
    method SelectTrack(trackIndex: int) returns (request: Option<PlayRequest>)
      modifies this
      ensures request.None? <==> !Truthy(deviceId) || !Truthy(accessToken)
      ensures request.Some? ==>
        request.value == PlayRequest(deviceId.value, accessToken.value, TrackUris(tracks), trackIndex)
      ensures currentTrackIndex == if request.Some? then trackIndex else old(currentTrackIndex)
      ensures accessToken == old(accessToken) && refreshToken == old(refreshToken)
      ensures isAuthenticated == old(isAuthenticated) && storage == old(storage)
      ensures deviceId == old(deviceId) && error == old(error)
      ensures position == old(position) && isPlaying == old(isPlaying)
    {
      if !Truthy(deviceId) || !Truthy(accessToken) {
        return None;
      }
      currentTrackIndex := trackIndex;
      request := Some(PlayRequest(deviceId.value, accessToken.value, TrackUris(tracks), trackIndex));
    }

    /** handleTrackSelect after the request: a 401 ends the session, so the
        message finally shown is the session-expiry one; 403 and 404 set
        their own messages; a thrown error sets the generic one; every other
        status leaves the error as it was. */
    method ApplyPlayResponse(response: PlayResponse)
      modifies this
      ensures response == Responded(401) ==>
        accessToken == None && refreshToken == None && !isAuthenticated &&
        storage == old(storage) - {ACCESS_TOKEN_KEY, REFRESH_TOKEN_KEY} &&
        error == Some(SESSION_EXPIRED_MESSAGE)
      ensures response != Responded(401) ==>
        accessToken == old(accessToken) && refreshToken == old(refreshToken) &&
        isAuthenticated == old(isAuthenticated) && storage == old(storage) &&
        error == if SelectionError(response).Some? then SelectionError(response) else old(error)
      ensures deviceId == old(deviceId) && currentTrackIndex == old(currentTrackIndex)
      ensures position == old(position) && isPlaying == old(isPlaying)
    {
      match response {
        case Failed =>
          error := Some(PLAY_FAILED_MESSAGE);
        case Responded(status) =>
          if !(200 <= status <= 299) {
            if status == 401 {
              error := Some(AUTH_EXPIRED_MESSAGE);
              TokenExpired();
            } else if status == 403 {
              error := Some(PREMIUM_REQUIRED_MESSAGE);
            } else if status == 404 {
              error := Some(DEVICE_NOT_FOUND_MESSAGE);
            }
          }
      }
    }

    /** Unauthenticated, only the login screen (with the last error) is
        rendered. */
    function CurrentScreen(): (s: Screen)
      reads this
      ensures s.LoginScreen? <==> !isAuthenticated
    {
      if !isAuthenticated then LoginScreen(error) else PlaylistScreen(tracks)
    }
  }
}
