/// The state snapshot the current MPD renderer reads: the whole playlist, the
/// position of the playing song in it and the elapsed time of that song.
/// Times are the `float64` seconds MPD reports, as exact reals: the play-time
/// line truncates them to whole seconds, while the progress bar divides them
/// as they are.
module Domain {
  import opened GoFmt

  datatype Track = Track(
    title: string,
    album: string,
    artist: string,
    genre: string,
    trackNumber: Int64,
    discNumber: Int64,
    year: string,
    length: real,
    artURL: string)

  datatype MpdState = MpdState(
    tracks: seq<Track>,
    currentIdx: Int64,
    currentElapsed: real)
}
