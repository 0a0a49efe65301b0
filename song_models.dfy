/** The song description the player pushes on a track change. */
module SongModels {
  import opened Wrappers

  datatype Artist = Artist(id: int, name: Option<string>)

  datatype Album = Album(id: int, name: Option<string>, picUrl: Option<string>)

  datatype SongInfo = SongInfo(
    id: int,
    name: Option<string>,
    alias: seq<string>,
    artists: seq<Artist>,
    album: Option<Album>,
    duration: int,
    transNames: seq<string>)

  /** `song?.album?.picUrl`: the cover URL, absent when the album or the URL is absent. */
  function CoverUrl(song: SongInfo): (url: Option<string>)
    ensures url.Some? <==> song.album.Some? && song.album.value.picUrl.Some?
    ensures url.Some? ==> url.value == song.album.value.picUrl.value
  {
    match song.album
    case None => None
    case Some(a) => a.picUrl
  }
}
