/// The Clementine renderer (cmd/conky-clementine/main.go): the playing track as
/// Clementine reports it over D-Bus (MPRIS), with its cover art. The bus calls
/// are not modelled; the metadata map and the position they return are inputs,
/// and the URL-to-path conversion is the parameter `asPath`.
module Clementine {
  import opened GoFmt
  import Timecode

  datatype CurrentTrack = CurrentTrack(
    title: string,
    album: string,
    artists: seq<string>,
    genres: seq<string>,
    trackNumber: Int32,
    discNumber: Int32,
    year: Int32,
    position: Int64,
    length: Int64,
    artURL: string)

  datatype ClementineState = ClementineState(currentTrack: CurrentTrack)

  const Header: string := "\nC L E M E N T I N E\n"

  const Width: nat := 20

  /// The separator this renderer puts between repetitions of a scrolled value.
  function ScrollUnit(val: string): (u: string)
    ensures |u| == |val| + 3 && val <= u && u[|val|..] == " | "
  {
    val + " | "
  }

  /// The window `scroll` cuts, read as a cycle over the unit: byte `k` of the
  /// window is byte `(tick + k) mod |unit|` of the unit, although the Go program
  /// starts the window at `tick mod (2 * |unit|)`.
  lemma ScrollWindow(val: string, l: nat, tick: nat, w: string)
    requires l <= |val|
    requires var n := |val| + 3; var step := tick % (2 * n);
      w == Fourfold(ScrollUnit(val))[step .. step + l]
    ensures |w| == l
    ensures forall k :: 0 <= k < |w| ==> w[k] == ScrollUnit(val)[(tick + k) % (|val| + 3)]
  {
    var unit := ScrollUnit(val);
    var n := |unit|;
    var step := tick % (2 * n);
    var m := 2 * (tick / (2 * n));
    assert tick == step + m * n;
    forall k | 0 <= k < |w|
      ensures w[k] == unit[(tick + k) % n]
    {
      FourfoldAt(unit, step + k);
      ModAddMultiple(step + k, m, n);
    }
  }

  /// `scroll(val, l)`: a value strictly shorter than `l` is shown whole. Any
  /// other shows exactly `l` bytes of `val + " | "` repeated, starting at the
  /// clock's position in the cycle.
  function Scroll(val: string, l: nat, tick: nat): (r: string)
    ensures |val| < l ==> r == val
    ensures |val| >= l ==>
      && |r| == l
      && forall k :: 0 <= k < l ==> r[k] == ScrollUnit(val)[(tick + k) % (|val| + 3)]
  {
    if |val| < l then val
    else
      var repeated := Fourfold(ScrollUnit(val));
      var step := tick % (|repeated| / 2);
      ScrollWindow(val, l, tick, repeated[step .. l + step]);
      repeated[step .. l + step]
  }

  /// Although the Go program takes the clock modulo twice the unit, the window
  /// repeats every `|val| + 3` ticks: once per pass over the value and its
  /// separator.
  lemma {:induction false} ScrollPeriodic(val: string, l: nat, tick: nat)
    ensures Scroll(val, l, tick + (|val| + 3)) == Scroll(val, l, tick)
  {
    if |val| >= l {
      var n := |val| + 3;
      var a, b := Scroll(val, l, tick + n), Scroll(val, l, tick);
      forall k | 0 <= k < l
        ensures a[k] == b[k]
      {
        ModAddPeriod(tick + k, n);
        assert tick + n + k == (tick + k) + n;
      }
    }
  }

  /// The line `addTrackInfo` appends: nothing for an empty value, otherwise the
  /// label, the right-alignment token, the scrolled value and a newline.
  function TrackInfoLine(name: string, data: string, tick: nat): (line: string)
    ensures line == "" <==> data == ""
    ensures data != "" ==>
      && name + ":${alignr}" <= line
      && line[|line| - 1] == '\n'
      && |line| == |name| + 11 + (if |data| < Width then |data| else Width)
  {
    if data == "" then "" else name + ":${alignr}" + Scroll(data, Width, tick) + "\n"
  }

  method AddTrackInfo(to: string, name: string, data: string, tick: nat) returns (res: string)
    ensures res == to + TrackInfoLine(name, data, tick)
    ensures to <= res
  {
    res := to;
    if data == "" {
      return;
    }
    res := res + (name + ":${alignr}" + Scroll(data, Width, tick) + "\n");
  }

  /// The cover-art line `addArt` appends: nothing without an art URL,
  /// otherwise a rule and a 200x200 image of the file the URL names.
  function ArtLine(artURL: string, asPath: string -> string): (line: string)
    ensures line == "" <==> artURL == ""
    ensures artURL != "" ==> "${hr}${image " <= line && line[|line| - 1] == '\n'
  {
    if artURL == "" then ""
    else "${hr}${image " + asPath(artURL) + " -p 0,135 -s 200x200}${voffset 200}\n"
  }

  method AddArt(to: string, data: ClementineState, asPath: string -> string) returns (res: string)
    ensures res == to + ArtLine(data.currentTrack.artURL, asPath)
    ensures to <= res
  {
    res := to;
    if data.currentTrack.artURL == "" {
      return;
    }
    res := res + ("${hr}${image " + asPath(data.currentTrack.artURL) + " -p 0,135 -s 200x200}${voffset 200}\n");
  }

  /// `asTimecode` on microseconds: truncated to whole seconds, then `M:SS`.
  function AsTimecode(micros: int): (r: string)
    ensures |r| >= 4
  {
    Timecode.AsTimecode(Quot(micros, 1000000))
  }

  /// For a non-negative time the timecode reads back to its whole seconds:
  /// the fraction of a second is dropped, nothing else is lost.
  lemma MicrosRoundTrip(micros: nat)
    ensures Timecode.ParseTimecode(AsTimecode(micros)) == Some(micros / 1000000)
  {
    Timecode.TimecodeRoundTrip(micros / 1000000);
  }

  lemma ExampleTwoFive()
    ensures AsTimecode(125000000) == "2:05"
  {
    assert Quot(125000000, 1000000) == 125;
    Timecode.ExampleTwoFive();
  }

  /// The play-time value: position and length, each as `M:SS`.
  function Playtime(position: int, length: int): (r: string)
    ensures |r| >= 11
  {
    AsTimecode(position) + " / " + AsTimecode(length)
  }

  /// What `format` returns: always the header, then the art line and the
  /// Title, Artists, Album, Genres and Playtime lines, each left out when its
  /// value is empty. Artists and genres are joined with single spaces.
  function Rendered(data: ClementineState, tick: nat, asPath: string -> string): string
  {
    var t := data.currentTrack;
    Header
      + ArtLine(t.artURL, asPath)
      + TrackInfoLine("Title", t.title, tick)
      + TrackInfoLine("Artists", Join(t.artists, " "), tick)
      + TrackInfoLine("Album", t.album, tick)
      + TrackInfoLine("Genres", Join(t.genres, " "), tick)
      + TrackInfoLine("Playtime", Playtime(t.position, t.length), tick)
  }

  method Format(data: ClementineState, tick: nat, asPath: string -> string) returns (r: string)
    ensures r == Rendered(data, tick, asPath)
    ensures Header <= r
  {
    r := "\nC L E M E N T I N E\n";
    r := AddArt(r, data, asPath);
    r := AddTrackInfo(r, "Title", data.currentTrack.title, tick);
    r := AddTrackInfo(r, "Artists", Join(data.currentTrack.artists, " "), tick);
    r := AddTrackInfo(r, "Album", data.currentTrack.album, tick);
    r := AddTrackInfo(r, "Genres", Join(data.currentTrack.genres, " "), tick);
    r := AddTrackInfo(r, "Playtime", Playtime(data.currentTrack.position, data.currentTrack.length), tick);
  }

  /// The Artists line is left out exactly when there is no artist or the only
  /// artist is the empty string.
  lemma ArtistsLineAbsent(artists: seq<string>, tick: nat)
    ensures TrackInfoLine("Artists", Join(artists, " "), tick) == ""
      <==> artists == [] || (|artists| == 1 && artists[0] == "")
  {
  }

  /// A D-Bus variant's value as the metadata map holds it: absent (nil), one
  /// of the types the renderer reads, or something else.
  datatype Variant =
    | Nil
    | Str(s: string)
    | StrSlice(elems: seq<string>)
    | I32(i32: Int32)
    | I64(i64: Int64)
    | Other

  /// Indexing the metadata map: a missing key gives the zero variant, whose
  /// value is nil.
  function Lookup(metadata: map<string, Variant>, key: string): (v: Variant)
    ensures key !in metadata ==> v == Nil
    ensures key in metadata ==> v == metadata[key]
  {
    if key in metadata then metadata[key] else Nil
  }

  /// `safeAsString`: nil reads as "", a string as itself. Any other type makes
  /// the Go type assertion panic, so callers must not pass one.
  function SafeAsString(v: Variant): (r: string)
    requires v.Nil? || v.Str?
    ensures v.Nil? ==> r == ""
    ensures v.Str? ==> r == v.s
  {
    if v.Nil? then "" else v.s
  }

  /// `safeAsStringSlice`: nil reads as the empty list.
  function SafeAsStringSlice(v: Variant): (r: seq<string>)
    requires v.Nil? || v.StrSlice?
    ensures v.Nil? ==> r == []
    ensures v.StrSlice? ==> r == v.elems
  {
    if v.Nil? then [] else v.elems
  }

  /// `safeAsInt32`: nil reads as 0.
  function SafeAsInt32(v: Variant): (r: Int32)
    requires v.Nil? || v.I32?
    ensures v.Nil? ==> r == 0
    ensures v.I32? ==> r == v.i32
  {
    if v.Nil? then 0 else v.i32
  }

  /// `safeAsInt64`: nil reads as 0.
  function SafeAsInt64(v: Variant): (r: Int64)
    requires v.Nil? || v.I64?
    ensures v.Nil? ==> r == 0
    ensures v.I64? ==> r == v.i64
  {
    if v.Nil? then 0 else v.i64
  }

  /// The metadata holds, under each key the renderer reads, either nothing or
  /// a value of the type it asserts; otherwise `getCurrentTrack` panics.
  predicate WellTyped(metadata: map<string, Variant>)
  {
    && (Lookup(metadata, "xesam:title").Nil? || Lookup(metadata, "xesam:title").Str?)
    && (Lookup(metadata, "xesam:album").Nil? || Lookup(metadata, "xesam:album").Str?)
    && (Lookup(metadata, "xesam:artist").Nil? || Lookup(metadata, "xesam:artist").StrSlice?)
    && (Lookup(metadata, "xesam:genre").Nil? || Lookup(metadata, "xesam:genre").StrSlice?)
    && (Lookup(metadata, "xesam:trackNumber").Nil? || Lookup(metadata, "xesam:trackNumber").I32?)
    && (Lookup(metadata, "xesam:discNumber").Nil? || Lookup(metadata, "xesam:discNumber").I32?)
    && (Lookup(metadata, "year").Nil? || Lookup(metadata, "year").I32?)
    && (Lookup(metadata, "mpris:length").Nil? || Lookup(metadata, "mpris:length").I64?)
    && (Lookup(metadata, "mpris:artUrl").Nil? || Lookup(metadata, "mpris:artUrl").Str?)
  }

  /// The current track as `getCurrentTrack` builds it from the metadata
  /// property and the position property. A key the metadata lacks gives the
  /// field's zero value.
  function CurrentTrackOf(metadata: map<string, Variant>, position: Int64): (t: CurrentTrack)
    requires WellTyped(metadata)
    ensures t.position == position
    ensures t.title == SafeAsString(Lookup(metadata, "xesam:title"))
    ensures t.album == SafeAsString(Lookup(metadata, "xesam:album"))
    ensures t.artists == SafeAsStringSlice(Lookup(metadata, "xesam:artist"))
    ensures t.genres == SafeAsStringSlice(Lookup(metadata, "xesam:genre"))
    ensures t.trackNumber == SafeAsInt32(Lookup(metadata, "xesam:trackNumber"))
    ensures t.discNumber == SafeAsInt32(Lookup(metadata, "xesam:discNumber"))
    ensures t.year == SafeAsInt32(Lookup(metadata, "year"))
    ensures t.length == SafeAsInt64(Lookup(metadata, "mpris:length"))
    ensures t.artURL == SafeAsString(Lookup(metadata, "mpris:artUrl"))
    ensures "xesam:title" in metadata && metadata["xesam:title"].Str? ==> t.title == metadata["xesam:title"].s
    ensures "xesam:title" !in metadata ==> t.title == ""
    ensures "xesam:artist" !in metadata ==> t.artists == []
    ensures "mpris:length" !in metadata ==> t.length == 0
    ensures "mpris:artUrl" !in metadata ==> t.artURL == ""
    ensures metadata == map[] ==>
      t == CurrentTrack("", "", [], [], 0, 0, 0, position, 0, "")
  {
    CurrentTrack(
      title := SafeAsString(Lookup(metadata, "xesam:title")),
      album := SafeAsString(Lookup(metadata, "xesam:album")),
      artists := SafeAsStringSlice(Lookup(metadata, "xesam:artist")),
      genres := SafeAsStringSlice(Lookup(metadata, "xesam:genre")),
      trackNumber := SafeAsInt32(Lookup(metadata, "xesam:trackNumber")),
      discNumber := SafeAsInt32(Lookup(metadata, "xesam:discNumber")),
      year := SafeAsInt32(Lookup(metadata, "year")),
      position := position,
      length := SafeAsInt64(Lookup(metadata, "mpris:length")),
      artURL := SafeAsString(Lookup(metadata, "mpris:artUrl")))
  }

  /// With nothing playing (empty metadata) the text is the header and the
  /// Playtime line alone, the length reading as `0:00`.
  lemma EmptyMetadataRender(position: Int64, tick: nat, asPath: string -> string)
    ensures Rendered(ClementineState(CurrentTrackOf(map[], position)), tick, asPath)
      == Header + TrackInfoLine("Playtime", Playtime(position, 0), tick)
  {
    var t := CurrentTrackOf(map[], position);
    assert t == CurrentTrack("", "", [], [], 0, 0, 0, position, 0, "");
    OnlyPlaytime(ClementineState(t), tick, asPath);
  }

  lemma DropEmpty(h: string, a: string, b: string, c: string, d: string, e: string, last: string)
    requires a == b == c == d == e == []
    ensures h + a + b + c + d + e + last == h + last
  {
    assert h + a + b + c + d + e == h;
  }

  /// A track with no art, title, artists, album or genres renders as the
  /// header and the Playtime line alone.
  lemma OnlyPlaytime(data: ClementineState, tick: nat, asPath: string -> string)
    requires var t := data.currentTrack;
      t.artURL == "" && t.title == "" && t.artists == [] && t.album == "" && t.genres == []
    ensures var t := data.currentTrack;
      Rendered(data, tick, asPath) == Header + TrackInfoLine("Playtime", Playtime(t.position, t.length), tick)
  {
    var t := data.currentTrack;
    var line := TrackInfoLine("Playtime", Playtime(t.position, t.length), tick);
    var art := ArtLine(t.artURL, asPath);
    var title := TrackInfoLine("Title", t.title, tick);
    var artists := TrackInfoLine("Artists", Join(t.artists, " "), tick);
    var album := TrackInfoLine("Album", t.album, tick);
    var genres := TrackInfoLine("Genres", Join(t.genres, " "), tick);
    assert Rendered(data, tick, asPath) == Header + art + title + artists + album + genres + line;
    DropEmpty(Header, art, title, artists, album, genres, line);
  }
}
