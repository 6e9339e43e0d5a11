/** lib/media-mapping.ts and the GET handler of app/api/media/route.ts: a
    request names a track id and a media type; the handler looks the id up
    in a fixed table of hashed file names, picks the folder and content type
    for the media type, and serves the file or answers with an error status.
    The public data directory is a map from path to file contents. Whether
    a lyrics file survives the handler's debug read is a parameter: the
    read runs JSON.parse and then `content.lines?.slice(0, 3).forEach`,
    so it throws on text that is not JSON, on a null document, and on a
    `lines` value that is neither absent, null nor an array. */
module MediaRoute {
  import opened Base

  /** The hashed file names of one track. */
  datatype MediaFiles = MediaFiles(song: string, cover: string, lyrics: string)

  /** mediaMapping, entry by entry. */
  const MEDIA_MAPPING: map<string, MediaFiles> := map[
    "st-look" := MediaFiles("c12ccc2b21954c01800e2e8c1d34db1d.mp3", "4e2619e88683f607c0460e4bb83a53cd.jpg", "b2c1c89f2d089e90081c6fd81cb7a406.json"),
    "cf-gold" := MediaFiles("3259fbfd9ae1ddf6fb643c105d96e8be.mp3", "b75a533f771ff64ff3977e503d7c6bcc.jpg", "334cc9a8a2651f515a54fca27d928c78.json"),
    "tym-never-matter" := MediaFiles("ecd8b9c4254d6bfb45d6e711122971b5.mp3", "27a32d3bb0617dee40a5b4d85b5e4d7f.jpg", "b7c995a5d02f97a124c64cb957811b4b.json"),
    "ch-heavens-on-the-other-side" := MediaFiles("c0935932edb668eb0c225f6edbccd679.mp3", "f9c9206b343efa5c7b20b51eaf580f69.jpg", "fc418e7f8806e827c86ea1c33b264805.json"),
    "ik-monta-el-trueno" := MediaFiles("690044dfa0a68070b4221845be503ead.mp3", "208261110c68303c61070e2bfa8b4bbf.jpg", "d4d0e1eb351ac34cf768a7c2d1e6d8f5.json"),
    "wsgm-parix" := MediaFiles("0868086c50febfb1f5c2d06f5511154a.mp3", "5848b25a82cc68e5997d6f109422450f.jpeg", "b65238c81428ffd5bb56d7bbd1c76636.json"),
    "fo-lost" := MediaFiles("ff3408404455781982db9f2922c9922d.mp3", "e58bec512db0bdbb309cec6c4ad57897.jpeg", "9aedfbe1717be6a4a2a823b23252117f.json"),
    "dd-ocean-drive" := MediaFiles("3ebe86457f3d0d539d9b6a4b87b0dc89.mp3", "3ce4de21ecdb9da0471feb668ec170a6.jpeg", "80a800530588ebf8c034b6cff7ed81cc.json"),
    "cx-gone" := MediaFiles("161b0ec16c8f1e8851b34ae831b17eeb.mp3", "92ca0d1bb56bab75ece3bbee02490692.jpeg", "6177ce55bfe882f9eafbda036613e10f.json"),
    "tl-disco-tits" := MediaFiles("f7b88ece933d5df19d8d2a897c679d63.mp3", "3fce5e42a7809979515962e87a8e1098.jpeg", "a059d1e7cf6cde2327ecd637d6a7f002.json"),
    "bm-desire" := MediaFiles("edfa192e97f8faee8872b40b6c0d8d75.mp3", "2f0d03d2b95faf8b8c39b4685994fa08.jpeg", "42068c3c28ab7344e437acac59b45ded.json"),
    "ebtg-tracey-in-my-room" := MediaFiles("f2cc946ac4f01c344448d4561388a50d.mp3", "dc71fa2fa1b2f3a7afc9fc78ff45fd6d.jpeg", "79b80b2a0059e0293021b60049bb9670.json"),
    "id-how-much" := MediaFiles("eec903577892c192091afc5629e71466.mp3", "61acba1ac57bdd5dca895363950c3819.jpeg", "e36461df8534a00c68588846a313e79e.json")
  ]

  const LYRICS_CACHE_CONTROL: string := "no-cache, no-store, must-revalidate"
  const MEDIA_CACHE_CONTROL: string := "public, max-age=31536000, immutable"

  /** A JSON error body with its status, or the file with its headers
      (status 200). */
  datatype Response =
    | ErrorResponse(status: int, error: string)
    | FileResponse(body: string, contentType: string, cacheControl: string)

  /** Where a media type is stored and how it is served. */
  datatype Route = Route(filename: string, folder: string, contentType: string)

  /** The switch on `type`; None is the default branch. */
  function RouteFor(files: MediaFiles, mediaType: string): (r: Option<Route>)
    ensures r.Some? <==> mediaType in {"song", "cover", "lyrics"}
    ensures mediaType == "song" ==> r == Some(Route(files.song, "songs", "audio/mpeg"))
    ensures mediaType == "cover" ==> r == Some(Route(files.cover, "covers", "image/jpeg"))
    ensures mediaType == "lyrics" ==> r == Some(Route(files.lyrics, "lyrics", "application/json"))
  {
    match mediaType
    case "song" => Some(Route(files.song, "songs", "audio/mpeg"))
    case "cover" =>
      // Both arms of the extension test give the same type.
      var contentType := if EndsWith(files.cover, ".jpg") then "image/jpeg" else "image/jpeg";
      Some(Route(files.cover, "covers", contentType))
    case "lyrics" => Some(Route(files.lyrics, "lyrics", "application/json"))
    case _ => None
  }

  /** path.join(process.cwd(), 'public', 'data', folder, filename), relative
      to the working directory. */
  function FilePath(folder: string, filename: string): (path: string)
    ensures |path| == |"public/data/"| + |folder| + 1 + |filename|
    ensures path[..12] == "public/data/" && path[|path| - |filename|..] == filename
  {
    "public/data/" + folder + "/" + filename
  }

  /** The GET handler. `id` and `mediaType` are the query parameters (None
      when absent), `disk` the files present, `readsAsLyrics` whether the
      debug read of a lyrics text (JSON.parse, then the slice of
      `content.lines`) completes without throwing. */
  function Get(id: Option<string>, mediaType: Option<string>,
               disk: map<string, string>, readsAsLyrics: string -> bool): (r: Response)
    ensures !Truthy(id) || !Truthy(mediaType) ==> r == ErrorResponse(400, "Missing id or type parameter")
    ensures Truthy(id) && Truthy(mediaType) && id.value !in MEDIA_MAPPING
            ==> r == ErrorResponse(404, "Invalid media ID")
    ensures Truthy(id) && Truthy(mediaType) && id.value in MEDIA_MAPPING
            && mediaType.value !in {"song", "cover", "lyrics"}
            ==> r == ErrorResponse(400, "Invalid type parameter")
    ensures r.FileResponse? ==>
      && mediaType.Some? && id.Some? && id.value in MEDIA_MAPPING
      && (r.cacheControl == LYRICS_CACHE_CONTROL <==> mediaType.value == "lyrics")
      && (r.cacheControl == MEDIA_CACHE_CONTROL <==> mediaType.value != "lyrics")
  {
    if !Truthy(id) || !Truthy(mediaType) then ErrorResponse(400, "Missing id or type parameter")
    else if id.value !in MEDIA_MAPPING then ErrorResponse(404, "Invalid media ID")
    else
      match RouteFor(MEDIA_MAPPING[id.value], mediaType.value)
      case None => ErrorResponse(400, "Invalid type parameter")
      case Some(route) =>
        var path := FilePath(route.folder, route.filename);
        if path !in disk then ErrorResponse(404, "File not found")
        else if mediaType.value == "lyrics" && !readsAsLyrics(disk[path]) then
          ErrorResponse(500, "Internal server error")
        else
          var cacheControl := if mediaType.value == "lyrics" then LYRICS_CACHE_CONTROL else MEDIA_CACHE_CONTROL;
          FileResponse(disk[path], route.contentType, cacheControl)
  }

  /** A file is served exactly when both parameters are given, the id is
      mapped, the type is one of the three, the mapped file exists and, for
      lyrics, survives the debug read; it is then served as is, with the route's
      content type. */
  lemma ServedIff(id: Option<string>, mediaType: Option<string>,
                  disk: map<string, string>, readsAsLyrics: string -> bool)
    ensures Get(id, mediaType, disk, readsAsLyrics).FileResponse?
        <==> && Truthy(id) && Truthy(mediaType) && id.value in MEDIA_MAPPING
             && mediaType.value in {"song", "cover", "lyrics"}
             && var route := RouteFor(MEDIA_MAPPING[id.value], mediaType.value).value;
                var path := FilePath(route.folder, route.filename);
                path in disk && (mediaType.value == "lyrics" ==> readsAsLyrics(disk[path]))
    ensures Get(id, mediaType, disk, readsAsLyrics).FileResponse? ==>
        var route := RouteFor(MEDIA_MAPPING[id.value], mediaType.value).value;
        var path := FilePath(route.folder, route.filename);
        Get(id, mediaType, disk, readsAsLyrics).body == disk[path]
        && Get(id, mediaType, disk, readsAsLyrics).contentType == route.contentType
  {
  }

  /** A mapped request whose type is valid but whose file is absent gets 404,
      and a lyrics file on which the debug read throws gets 500. */
  lemma FileErrors(id: string, mediaType: string, disk: map<string, string>, readsAsLyrics: string -> bool)
    requires id in MEDIA_MAPPING && mediaType in {"song", "cover", "lyrics"}
    ensures var route := RouteFor(MEDIA_MAPPING[id], mediaType).value;
      var path := FilePath(route.folder, route.filename);
      && (path !in disk ==> Get(Some(id), Some(mediaType), disk, readsAsLyrics) == ErrorResponse(404, "File not found"))
      && (path in disk && mediaType == "lyrics" && !readsAsLyrics(disk[path])
          ==> Get(Some(id), Some(mediaType), disk, readsAsLyrics) == ErrorResponse(500, "Internal server error"))
  {
  }
}
