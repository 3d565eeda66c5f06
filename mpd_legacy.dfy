/// The older MPD renderer (cmd/conky-mpd/main.go): the playing song only, with
/// no playlist section and no progress bar. Its `scroll` wraps the value with a
/// "/" separator. The connection and its queries are not modelled; the
/// attribute maps they return are inputs, and the float parser is the
/// parameter `seconds`.
module MpdLegacy {
  import opened GoFmt
  import opened Strconv
  import opened Timecode
  import MpdGet

  datatype CurrentTrack = CurrentTrack(
    title: string,
    album: string,
    artist: string,
    genre: string,
    trackNumber: Int64,
    discNumber: Int64,
    year: string,
    position: real,
    length: real,
    artURL: string)

  datatype MpdState = MpdState(currentTrack: CurrentTrack)

  const Header: string := "\nM P D\n${hr}\n"

  const Width: nat := 20

  /// `scroll(val, l)`: a value strictly shorter than `l` is shown whole. Any
  /// other, even one of exactly `l` bytes, shows a window of exactly `l` bytes
  /// over `val + "/"` repeated, starting at `tick mod (l + 1)`.
  function Scroll(val: string, l: nat, tick: nat): (r: string)
    ensures |val| < l ==> r == val
    ensures |val| >= l ==>
      && |r| == l
      && forall k :: 0 <= k < l ==> r[k] == (val + "/")[(tick % (l + 1) + k) % (|val| + 1)]
  {
    if |val| < l then val
    else
      var unit := val + "/";
      var repeated := Fourfold(unit);
      var step := tick % (l + 1);
      FourfoldWindow(unit, step, l);
      repeated[step .. l + step]
  }

  /// The window repeats every `l + 1` ticks, whatever the length of the value.
  lemma {:induction false} ScrollPeriodic(val: string, l: nat, tick: nat)
    ensures Scroll(val, l, tick + (l + 1)) == Scroll(val, l, tick)
  {
    var step := tick % (l + 1);
    ModAddPeriod(tick, l + 1);
    assert (tick + (l + 1)) % (l + 1) == step;
  }

  /// A value of exactly `l` bytes fits, yet it still scrolls: at the tick
  /// where the window starts on the separator, it shows "/" and then the value
  /// without its last byte.
  lemma ExactFitScrolls(val: string, tick: nat)
    requires val != [] && tick % (|val| + 1) == |val|
    ensures Scroll(val, |val|, tick) == "/" + val[..|val| - 1]
  {
    var n := |val|;
    var r := Scroll(val, n, tick);
    forall k | 0 <= k < n
      ensures r[k] == ("/" + val[..n - 1])[k]
    {
      if k == 0 {
        DivModUnique(n, n + 1, 0, n);
      } else {
        DivModUnique(n + k, n + 1, 1, k - 1);
      }
    }
  }

  /// The line `addTrackInfo` appends: nothing for an empty value, otherwise the
  /// label, the right-alignment token, the scrolled value and a newline.
  function TrackInfoLine(name: string, data: string, tick: nat): string
  {
    if data == "" then "" else name + ":${alignr}" + Scroll(data, Width, tick) + "\n"
  }

  /// An empty value leaves no dangling label; any other value gives one line
  /// showing the whole value when it is shorter than `Width`, else exactly
  /// `Width` bytes.
  lemma TrackInfoLineShape(name: string, data: string, tick: nat)
    ensures var line := TrackInfoLine(name, data, tick);
      && (line == "" <==> data == "")
      && (data != "" ==>
            && name + ":${alignr}" <= line
            && line[|line| - 1] == '\n'
            && |line| == |name| + 11 + (if |data| < Width then |data| else Width))
  {
  }

  method AddTrackInfo(to: string, name: string, data: string, tick: nat) returns (res: string)
    ensures res == to + TrackInfoLine(name, data, tick)
    ensures to <= res
  {
    res := to;
    if data == "" {
      return;
    }
    res := res + (name + ":${alignr}" + Scroll(data, Width, tick) + "\n");
  }

  predicate HasData(data: MpdState)
  {
    data.currentTrack.title != ""
  }

  /// The play-time value: position and length, each as `M:SS`.
  function Playtime(position: real, length: real): (r: string)
    ensures |r| >= 11
  {
    FloatTimecode(position) + " / " + FloatTimecode(length)
  }

  /// What `format` returns: nothing without a title; otherwise the header,
  /// then the Title, Artists, Album and Genres lines (each left out when
  /// empty) and the Playtime line.
  function Rendered(data: MpdState, tick: nat): string
  {
    var t := data.currentTrack;
    if !HasData(data) then ""
    else
      Header
        + TrackInfoLine("Title", t.title, tick)
        + TrackInfoLine("Artists", t.artist, tick)
        + TrackInfoLine("Album", t.album, tick)
        + TrackInfoLine("Genres", t.genre, tick)
        + TrackInfoLine("Playtime", Playtime(t.position, t.length), tick)
  }

  method Format(data: MpdState, tick: nat) returns (r: string)
    ensures r == Rendered(data, tick)
    ensures r == "" <==> data.currentTrack.title == ""
    ensures data.currentTrack.title != "" ==> Header <= r
  {
    if !HasData(data) {
      return "";
    }
    var t := data.currentTrack;
    r := Header;
    r := AddTrackInfo(r, "Title", t.title, tick);
    r := AddTrackInfo(r, "Artists", t.artist, tick);
    r := AddTrackInfo(r, "Album", t.album, tick);
    r := AddTrackInfo(r, "Genres", t.genre, tick);
    r := AddTrackInfo(r, "Playtime", Playtime(t.position, t.length), tick);
  }

  /// With a title, the text always ends with the Playtime line, which is
  /// never left out.
  lemma {:induction false} EndsWithPlaytime(data: MpdState, tick: nat)
    requires HasData(data)
    ensures var t := data.currentTrack;
      var line := TrackInfoLine("Playtime", Playtime(t.position, t.length), tick);
      var r := Rendered(data, tick);
      && line != ""
      && |line| <= |r| && r[|r| - |line|..] == line
  {
    var t := data.currentTrack;
    var line := TrackInfoLine("Playtime", Playtime(t.position, t.length), tick);
    var head := Header
      + TrackInfoLine("Title", t.title, tick)
      + TrackInfoLine("Artists", t.artist, tick)
      + TrackInfoLine("Album", t.album, tick)
      + TrackInfoLine("Genres", t.genre, tick);
    assert Rendered(data, tick) == head + line;
  }

  /// The current track as `getCurrentTrack` fills it from the current song's
  /// metadata and the status: missing attributes read as "", the numbers go
  /// through `strToInt64`.
  function CurrentTrackOf(metadata: MpdGet.Attrs, status: MpdGet.Attrs, seconds: string -> real): (t: CurrentTrack)
    ensures t.title == MpdGet.Attr(metadata, "Title") && t.album == MpdGet.Attr(metadata, "Album")
    ensures t.artist == MpdGet.Attr(metadata, "Artist") && t.genre == MpdGet.Attr(metadata, "Genre")
    ensures t.year == MpdGet.Attr(metadata, "OriginalDate")
    ensures t.trackNumber == StrToInt64(MpdGet.Attr(metadata, "Track"))
    ensures t.discNumber == StrToInt64(MpdGet.Attr(metadata, "DiscNumber"))
    ensures t.length == seconds(MpdGet.Attr(metadata, "duration"))
    ensures t.position == seconds(MpdGet.Attr(status, "elapsed"))
    ensures "Title" !in metadata ==> !HasData(MpdState(t))
  {
    CurrentTrack(
      title := MpdGet.Attr(metadata, "Title"),
      album := MpdGet.Attr(metadata, "Album"),
      artist := MpdGet.Attr(metadata, "Artist"),
      genre := MpdGet.Attr(metadata, "Genre"),
      trackNumber := StrToInt64(MpdGet.Attr(metadata, "Track")),
      discNumber := StrToInt64(MpdGet.Attr(metadata, "DiscNumber")),
      year := MpdGet.Attr(metadata, "OriginalDate"),
      position := seconds(MpdGet.Attr(status, "elapsed")),
      length := seconds(MpdGet.Attr(metadata, "duration")),
      artURL := "")
  }
}
