/** lib/media-urls.ts: the base URLs for songs, covers and lyrics, and the
    URL of one media file. Whether the code runs in development or on
    localhost is a parameter (`local`); so is the optional file name. */
module MediaUrls {
  import opened Base

  datatype MediaType = Song | Cover | Lyrics

  /** The type as the caller spells it: 'song', 'cover' or 'lyrics'. */
  function TypeName(t: MediaType): string {
    match t
    case Song => "song"
    case Cover => "cover"
    case Lyrics => "lyrics"
  }

  const PRODUCTION_BASE_URL: string := "https://play.joelcolombo.co/404"
  const GITHUB_RAW_BASE: string := "https://raw.githubusercontent.com/joelcolombo/hey/main/public/data"

  /** getMediaUrls: the object with keys songs, covers and lyrics. */
  function MediaUrlTable(local: bool): (urls: map<string, string>)
    ensures urls.Keys == {"songs", "covers", "lyrics"}
  {
    if local then
      map["songs" := "/api/media?type=song&id=",
          "covers" := "/api/media?type=cover&id=",
          "lyrics" := "/api/media?type=lyrics&id="]
    else
      map["songs" := PRODUCTION_BASE_URL + "/songs/",
          "covers" := GITHUB_RAW_BASE + "/covers/",
          "lyrics" := GITHUB_RAW_BASE + "/lyrics/"]
  }

  /** `${urls[key]}`: a missing key reads as undefined, which a template
      literal prints as "undefined". */
  function Lookup(urls: map<string, string>, key: string): (v: string)
    ensures key !in urls ==> v == "undefined"
  {
    if key in urls then urls[key] else "undefined"
  }

  /** getMediaUrl as written: the key is the type name followed by 's'. */
  function GetMediaUrl(t: MediaType, id: string, filename: Option<string>, local: bool): (url: string)
    ensures !local && !Truthy(filename) ==> url == ""
  {
    var urls := MediaUrlTable(local);
    if local then Lookup(urls, TypeName(t) + "s") + id
    else if !Truthy(filename) then ""
    else Lookup(urls, TypeName(t) + "s") + filename.value
  }

  /** Songs and covers resolve: locally to the API route with the id, in
      production to the file under its base, as long as a file name is
      given. */
  lemma SongsAndCoversResolve(t: MediaType, id: string, filename: Option<string>, local: bool)
    requires t != Lyrics
    ensures var key := if t == Song then "songs" else "covers";
      && (local ==> GetMediaUrl(t, id, filename, local) == MediaUrlTable(true)[key] + id)
      && (!local && Truthy(filename) ==> GetMediaUrl(t, id, filename, local) == MediaUrlTable(false)[key] + filename.value)
  {
    assert TypeName(Song) + "s" == "songs";
    assert TypeName(Cover) + "s" == "covers";
  }

  /** For lyrics the key is "lyricss", which the table lacks, so the URL
      starts with "undefined" wherever it is not "". */
  lemma LyricsKeyMisses(id: string, filename: Option<string>, local: bool)
    ensures TypeName(Lyrics) + "s" !in MediaUrlTable(local)
    ensures local ==> GetMediaUrl(Lyrics, id, filename, local) == "undefined" + id
    ensures !local && Truthy(filename) ==> GetMediaUrl(Lyrics, id, filename, local) == "undefined" + filename.value
  {
    assert TypeName(Lyrics) + "s" == "lyricss";
    assert "lyricss" != "lyrics";
  }

  /** The key each type was evidently meant to reach. */
  function UrlKey(t: MediaType): (key: string)
    ensures key in MediaUrlTable(true) && key in MediaUrlTable(false)
  {
    match t
    case Song => "songs"
    case Cover => "covers"
    case Lyrics => "lyrics"
  }

  /** getMediaUrl with the key corrected. */
  function IntendedMediaUrl(t: MediaType, id: string, filename: Option<string>, local: bool): (url: string)
    ensures !local && !Truthy(filename) ==> url == ""
  {
    var urls := MediaUrlTable(local);
    if local then urls[UrlKey(t)] + id
    else if !Truthy(filename) then ""
    else urls[UrlKey(t)] + filename.value
  }

  /** With the corrected key every type resolves: a local URL is the API
      route for that very type followed by the id, a production URL the
      type's folder followed by the file name; and it agrees with the code
      as written on songs and covers. */
  lemma IntendedUrlResolves(t: MediaType, id: string, filename: Option<string>, local: bool)
    ensures local ==> IntendedMediaUrl(t, id, filename, local) == "/api/media?type=" + TypeName(t) + "&id=" + id
    ensures !local && Truthy(filename) ==>
      IntendedMediaUrl(t, id, filename, local)
        == (if t == Song then PRODUCTION_BASE_URL + "/songs/" else GITHUB_RAW_BASE + "/" + UrlKey(t) + "/")
           + filename.value
    ensures t != Lyrics ==> IntendedMediaUrl(t, id, filename, local) == GetMediaUrl(t, id, filename, local)
  {
    IntendedKeyAgrees(t);
  }

  lemma IntendedKeyAgrees(t: MediaType)
    ensures t != Lyrics ==> TypeName(t) + "s" == UrlKey(t)
    ensures MediaUrlTable(true)[UrlKey(t)] == "/api/media?type=" + TypeName(t) + "&id="
  {
    match t
    case Song => assert TypeName(t) + "s" == "songs";
    case Cover => assert TypeName(t) + "s" == "covers";
    case Lyrics =>
  }
}
