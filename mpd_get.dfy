/// The pure part of reading MPD's state (cmd/conky-mpd/internal/mpd/get.go):
/// turning the playlist's attribute maps and the status map into a snapshot.
/// The connection and its queries are not modelled; their answers are the
/// inputs. MPD reports durations and elapsed time as decimal seconds; the
/// float parser `strToFloat64` is the parameter `seconds`.
module MpdGet {
  import opened GoFmt
  import opened Strconv
  import opened Domain

  /// An `mpd.Attrs` map: attribute name to value.
  type Attrs = map<string, string>

  /// Go's map index: a missing key reads as the empty string.
  function Attr(attrs: Attrs, key: string): (v: string)
    ensures key !in attrs ==> v == ""
    ensures key in attrs ==> v == attrs[key]
  {
    if key in attrs then attrs[key] else ""
  }

  /// `getTrack`: the metadata fields are copied, `OriginalDate` becomes the
  /// year, track and disc numbers go through `strToInt64`, and a missing
  /// attribute gives "" (and so 0 for the numbers).
  function GetTrack(metadata: Attrs, seconds: string -> real): (t: Track)
    ensures t.title == Attr(metadata, "Title") && t.album == Attr(metadata, "Album")
    ensures t.artist == Attr(metadata, "Artist") && t.genre == Attr(metadata, "Genre")
    ensures t.year == Attr(metadata, "OriginalDate")
    ensures t.trackNumber == StrToInt64(Attr(metadata, "Track"))
    ensures t.discNumber == StrToInt64(Attr(metadata, "DiscNumber"))
    ensures t.length == seconds(Attr(metadata, "duration"))
    ensures t.artURL == ""
    ensures "Track" !in metadata ==> t.trackNumber == 0
    ensures "DiscNumber" !in metadata ==> t.discNumber == 0
  {
    Track(
      title := Attr(metadata, "Title"),
      album := Attr(metadata, "Album"),
      artist := Attr(metadata, "Artist"),
      genre := Attr(metadata, "Genre"),
      trackNumber := StrToInt64(Attr(metadata, "Track")),
      discNumber := StrToInt64(Attr(metadata, "DiscNumber")),
      year := Attr(metadata, "OriginalDate"),
      length := seconds(Attr(metadata, "duration")),
      artURL := "")
  }

  /// A track tag written as "track/total" gives track number 0.
  lemma TrackOfTotalGivesZero(metadata: Attrs, seconds: string -> real)
    requires Attr(metadata, "Track") == "3/12"
    ensures GetTrack(metadata, seconds).trackNumber == 0
  {
    TrackOfTotalIsZero();
  }

  /// The snapshot assembly of `GetMpdState`, from the playlist and the status
  /// the connection returned: one track per playlist entry, in order, then the
  /// current index and the elapsed time from the status.
  method GetMpdState(allSongs: seq<Attrs>, status: Attrs, seconds: string -> real)
    returns (result: MpdState)
    ensures |result.tracks| == |allSongs|
    ensures forall i :: 0 <= i < |allSongs| ==> result.tracks[i] == GetTrack(allSongs[i], seconds)
    ensures result.currentIdx == StrToInt64(Attr(status, "song"))
    ensures "song" !in status ==> result.currentIdx == 0
    ensures result.currentElapsed == seconds(Attr(status, "elapsed"))
  {
    result := MpdState([], 0, 0.0);
    for i := 0 to |allSongs|
      invariant |result.tracks| == i
      invariant forall j :: 0 <= j < i ==> result.tracks[j] == GetTrack(allSongs[j], seconds)
    {
      var track := GetTrack(allSongs[i], seconds);
      result := result.(tracks := result.tracks + [track]);
    }
    result := result.(currentIdx := StrToInt64(Attr(status, "song")));
    result := result.(currentElapsed := seconds(Attr(status, "elapsed")));
  }
}
