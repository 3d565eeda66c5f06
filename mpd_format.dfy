/// The current MPD renderer (cmd/conky-mpd/internal/format/format.go): a
/// header, the playing song with a progress bar, then every song after it in
/// the playlist.
///
/// The Go program builds its text by appending to a string through a pointer
/// (`addTrackInfo(&r, ...)`); here each such helper is a method that takes the
/// text so far and returns the extended text. The wall clock read by `scroll`
/// is the parameter `tick`.
module MpdFormat {
  import opened GoFmt
  import opened Timecode
  import opened Domain

  const Header: string := "\nM P D\n${hr}\n"

  /// The bytes that start each upcoming-song line. The Go literal holds seven
  /// bytes: the UTF-8 encoding of "\u2022" read as Windows-1252 and encoded
  /// again ("\u00e2\u20ac\u00a2"). They are kept as they are.
  const Bullet: string := "\U{C3}\U{A2}\U{E2}\U{82}\U{AC}\U{C2}\U{A2}"

  /// The width every value is scrolled to.
  const Width: nat := 20

  /// `scroll(val, l)`: a value that fits is shown whole; a longer one shows a
  /// window of exactly `l` bytes that slides one byte per tick and wraps after
  /// `len(val) - l` ticks. The window never covers the last byte of `val`.
  function Scroll(val: string, l: nat, tick: nat): (r: string)
    ensures |val| <= l ==> r == val
    ensures |val| > l ==>
      && |r| == l
      && tick % (|val| - l) + l < |val|
      && r == val[tick % (|val| - l) .. tick % (|val| - l) + l]
  {
    if |val| <= l then val
    else
      var step := tick % (|val| - l);
      val[step .. l + step]
  }

  /// The window after `len(val) - l` more ticks is the same window.
  lemma {:induction false} ScrollPeriodic(val: string, l: nat, tick: nat)
    requires |val| > l
    ensures Scroll(val, l, tick + (|val| - l)) == Scroll(val, l, tick)
  {
    var d := |val| - l;
    ModAddPeriod(tick, d);
  }

  /// `etcetera(val, l)`, as written: a value shorter than `l` is kept; any
  /// other is cut to `l - 3` bytes followed by "...". The Go program never calls it.
  function Etcetera(val: string, l: int): (r: string)
    requires |val| < l || 3 <= l
    ensures |val| < l ==> r == val
    ensures |val| >= l ==> |r| == l && r[..l - 3] == val[..l - 3] && r[l - 3..] == "..."
  {
    if |val| < l then val else val[..l - 3] + "..."
  }

  /// A value of exactly `l` bytes fits, yet `etcetera` replaces its last three
  /// bytes by "..." (unless they already were "...").
  lemma EtceteraCutsExactFit(val: string)
    requires |val| >= 3 && val[|val| - 3..] != "..."
    ensures Etcetera(val, |val|) != val
  {
    assert Etcetera(val, |val|)[|val| - 3..] == "...";
  }

  /// `etcetera` with the comparison the ellipsis calls for: a value is cut
  /// only when it is longer than `l`.
  function EtceteraFitting(val: string, l: int): (r: string)
    requires |val| <= l || 3 <= l
    ensures |val| <= l ==> r == val
    ensures |val| > l ==> |r| == l && r[..l - 3] == val[..l - 3] && r[l - 3..] == "..."
  {
    if |val| <= l then val else val[..l - 3] + "..."
  }

  /// The fitting version never changes a value that fits and never returns
  /// more than `l` bytes.
  lemma EtceteraFittingBound(val: string, l: int)
    requires 3 <= l
    ensures |EtceteraFitting(val, l)| <= l
    ensures EtceteraFitting(val, l) == val <==> |val| <= l
  {
    if |val| > l {
      assert |EtceteraFitting(val, l)| != |val|;
    }
  }

  /// The line `addTrackInfo` appends: nothing for an empty value, otherwise the
  /// label, the right-alignment token, the scrolled value and a newline.
  function TrackInfoLine(name: string, data: string, tick: nat): string
  {
    if data == "" then "" else name + ":${alignr}" + Scroll(data, Width, tick) + "\n"
  }

  /// An empty value leaves no dangling label; any other value gives one line
  /// whose visible value is the whole value or exactly `Width` bytes of it.
  lemma TrackInfoLineShape(name: string, data: string, tick: nat)
    ensures var line := TrackInfoLine(name, data, tick);
      && (line == "" <==> data == "")
      && (data != "" ==>
            && name + ":${alignr}" <= line
            && line[|line| - 1] == '\n'
            && |line| == |name| + 11 + (if |data| <= Width then |data| else Width))
  {
  }

  method AddTrackInfo(to: string, name: string, data: string, tick: nat) returns (res: string)
    ensures res == to + TrackInfoLine(name, data, tick)
    ensures to <= res
  {
    res := to;
    if data == "" {
      return;
    }
    res := res + (name + ":${alignr}" + Scroll(data, Width, tick) + "\n");
  }

  /// A `float64` quotient as IEEE arithmetic gives it: a number, an infinity
  /// or NaN.
  datatype Ratio = Finite(value: real) | PosInf | NegInf | NaN

  /// `CurrentElapsed/Length`: the quotient when the length is not zero; over
  /// a zero length, an infinity with the elapsed time's sign, or NaN for 0/0.
  function RatioOf(elapsed: real, length: real): (p: Ratio)
    ensures p.NaN? <==> elapsed == 0.0 && length == 0.0
    ensures p.PosInf? <==> elapsed > 0.0 && length == 0.0
    ensures p.NegInf? <==> elapsed < 0.0 && length == 0.0
    ensures p.Finite? ==> length != 0.0 && p.value * length == elapsed
  {
    if length != 0.0 then Finite(elapsed / length)
    else if elapsed > 0.0 then PosInf
    else if elapsed < 0.0 then NegInf
    else NaN
  }

  /// The clamp of `addBar`: below 0 (-Inf included) becomes 0, above 1 (+Inf
  /// included) becomes 1. NaN fails both comparisons and is kept.
  function Clamp(p: Ratio): (c: Ratio)
    ensures c.NaN? <==> p.NaN?
    ensures c.Finite? ==> 0.0 <= c.value <= 1.0
    ensures p.Finite? && 0.0 <= p.value <= 1.0 ==> c == p
    ensures (p.Finite? && p.value < 0.0) || p.NegInf? ==> c == Finite(0.0)
    ensures (p.Finite? && p.value > 1.0) || p.PosInf? ==> c == Finite(1.0)
  {
    match p
    case Finite(x) => if x < 0.0 then Finite(0.0) else if x > 1.0 then Finite(1.0) else p
    case PosInf => Finite(1.0)
    case NegInf => Finite(0.0)
    case NaN => NaN
  }

  /// The value `addBar` prints: the clamped ratio times 100, within [0, 100]
  /// for every ratio but NaN.
  function Percent(p: Ratio): (v: Ratio)
    ensures v.NaN? <==> p.NaN?
    ensures !v.PosInf? && !v.NegInf?
    ensures v.Finite? ==> 0.0 <= v.value <= 100.0
  {
    match Clamp(p)
    case Finite(x) => Finite(x * 100.0)
    case other => other
  }

  /// `%.2f` of a non-negative number: the integer part, a point and two
  /// decimals, which together read as the number of hundredths nearest to
  /// `v` (a half rounding up). The integer part has no leading zero.
  function FixedTwo(v: real): (s: string)
    requires v >= 0.0
    ensures |s| >= 4 && s[|s| - 3] == '.'
    ensures s[0] == '0' ==> |s| == 4
    ensures AllDigits(s[..|s| - 3]) && AllDigits(s[|s| - 2..])
    ensures var h := DigitsValue(s[..|s| - 3]) * 100 + DigitsValue(s[|s| - 2..]);
      h as real <= v * 100.0 + 0.5 < h as real + 1.0
  {
    var h: nat := (v * 100.0 + 0.5).Floor;
    var whole, frac := Decimal(h / 100), PadInt(h % 100, 2);
    TwoPlaces(h % 100);
    DecimalRoundTrip(h / 100);
    assert whole[0] == '0' ==> whole == "0";
    var s := whole + "." + frac;
    assert s[..|s| - 3] == whole;
    assert s[|s| - 2..] == frac;
    s
  }

  /// How `%.2f` prints a percentage: two decimals, or Go's spelling of the
  /// infinite and undefined values.
  function PercentText(v: Ratio): string
    requires v.Finite? ==> v.value >= 0.0
  {
    match v
    case Finite(x) => FixedTwo(x)
    case PosInf => "+Inf"
    case NegInf => "-Inf"
    case NaN => "NaN"
  }

  function BarLine(p: Ratio): string
  {
    "${execbar expr " + PercentText(Percent(p)) + "}\n"
  }

  method AddBar(to: string, percent: Ratio) returns (res: string)
    ensures res == to + BarLine(percent)
  {
    var p := percent;
    match p {
      case Finite(x) =>
        if x < 0.0 {
          p := Finite(0.0);
        } else if x > 1.0 {
          p := Finite(1.0);
        }
      case PosInf =>
        p := Finite(1.0);
      case NegInf =>
        p := Finite(0.0);
      case NaN =>
    }
    assert p == Clamp(percent);
    var val := match p
      case Finite(x) => Finite(x * 100.0)
      case other => other;
    assert val == Percent(percent);
    res := to + ("${execbar expr " + PercentText(val) + "}\n");
  }

  /// The bar shows NaN exactly when both the elapsed time and the length are
  /// zero; otherwise its value lies in [0, 100]. Over a positive length it is
  /// the elapsed share of the length, 0 before the start and 100 past the end.
  lemma BarValue(elapsed: real, length: real)
    ensures Percent(RatioOf(elapsed, length)).NaN? <==> elapsed == 0.0 && length == 0.0
    ensures var v := Percent(RatioOf(elapsed, length));
      v.Finite? ==> 0.0 <= v.value <= 100.0
    ensures 0.0 < length && 0.0 <= elapsed <= length ==>
      Percent(RatioOf(elapsed, length)) == Finite(100.0 * elapsed / length)
    ensures 0.0 < length && elapsed < 0.0 ==> Percent(RatioOf(elapsed, length)) == Finite(0.0)
    ensures 0.0 < length && length < elapsed ==> Percent(RatioOf(elapsed, length)) == Finite(100.0)
  {
    if 0.0 < length {
      var x := elapsed / length;
      assert x * length == elapsed;
      assert RatioOf(elapsed, length) == Finite(x);
      QuotientSign(elapsed, length, x);
      if 0.0 <= elapsed <= length {
        assert Clamp(Finite(x)) == Finite(x);
        assert 100.0 * elapsed / length == x * 100.0;
      }
    }
  }

  /// Over a positive divisor the quotient is negative exactly when the
  /// dividend is, and above 1 exactly when the dividend exceeds the divisor.
  lemma QuotientSign(e: real, l: real, x: real)
    requires 0.0 < l && x * l == e
    ensures x < 0.0 <==> e < 0.0
    ensures x > 1.0 <==> e > l
  {
    assert (x - 1.0) * l == e - l;
  }

  /// The play-time value: elapsed and total length, each as `M:SS`.
  function Playtime(elapsed: real, length: real): (r: string)
    ensures |r| >= 11
  {
    FloatTimecode(elapsed) + " / " + FloatTimecode(length)
  }

  predicate HasData(data: MpdState)
  {
    |data.tracks| > 0
  }

  predicate ValidIndex(data: MpdState)
  {
    0 <= data.currentIdx < |data.tracks|
  }

  /// What `formatCurrentSong` returns: Title, Artists and Album lines (each
  /// left out when empty), the Playtime line and the progress bar.
  function CurrentSongText(allData: MpdState, tick: nat): string
    requires ValidIndex(allData)
  {
    var data := allData.tracks[allData.currentIdx];
    TrackInfoLine("Title", data.title, tick)
      + TrackInfoLine("Artists", data.artist, tick)
      + TrackInfoLine("Album", data.album, tick)
      + TrackInfoLine("Playtime", Playtime(allData.currentElapsed, data.length), tick)
      + BarLine(RatioOf(allData.currentElapsed, data.length))
  }

  method FormatCurrentSong(allData: MpdState, tick: nat) returns (r: string)
    requires ValidIndex(allData)
    ensures r == CurrentSongText(allData, tick)
  {
    var data := allData.tracks[allData.currentIdx];
    r := "";
    r := AddTrackInfo(r, "Title", data.title, tick);
    assert r == TrackInfoLine("Title", data.title, tick);
    r := AddTrackInfo(r, "Artists", data.artist, tick);
    r := AddTrackInfo(r, "Album", data.album, tick);
    r := AddTrackInfo(r, "Playtime", Playtime(allData.currentElapsed, data.length), tick);
    r := AddBar(r, RatioOf(allData.currentElapsed, data.length));
  }

  /// `formatSongMinimal`: one line holding the title and the artist, split
  /// by " | ".
  function SongMinimal(track: Track): (line: string)
    ensures track.title + " | " + track.artist <= line
    ensures |line| == |track.title| + |track.artist| + 4 && line[|line| - 1] == '\n'
  {
    track.title + " | " + track.artist + "\n"
  }

  /// One bullet line per track, in playlist order.
  function BulletLines(tracks: seq<Track>): string
  {
    if tracks == [] then ""
    else BulletLines(tracks[..|tracks| - 1]) + Bullet + SongMinimal(tracks[|tracks| - 1])
  }

  lemma {:induction false} BulletLinesAppend(a: seq<Track>, b: seq<Track>)
    ensures BulletLines(a + b) == BulletLines(a) + BulletLines(b)
    decreases |b|
  {
    if b == [] {
      assert a + b == a;
    } else {
      assert (a + b)[..|a + b| - 1] == a + b[..|b| - 1];
      BulletLinesAppend(a, b[..|b| - 1]);
    }
  }

  /// The line of track `k` sits after the lines of every earlier track and
  /// before the lines of every later one.
  lemma {:induction false} BulletLineAt(tracks: seq<Track>, k: nat)
    requires k < |tracks|
    ensures BulletLines(tracks)
      == BulletLines(tracks[..k]) + Bullet + SongMinimal(tracks[k]) + BulletLines(tracks[k + 1..])
  {
    var before, after := tracks[..k], tracks[k + 1..];
    assert tracks == (before + [tracks[k]]) + after;
    BulletLinesAppend(before + [tracks[k]], after);
    BulletLinesAppend(before, [tracks[k]]);
    assert BulletLines([tracks[k]]) == Bullet + SongMinimal(tracks[k]) by {
      assert [tracks[k]][..0] == [];
    }

  }

  function UpcomingHeader(remaining: nat): string
  {
    "${hr}\n" + Decimal(remaining) + " Songs left, next up...\n"
  }

  /// What `formatUpcomingSongs` returns: the number of songs after the current
  /// one, then a bullet line for each of them.
  function UpcomingText(allData: MpdState): string
    requires ValidIndex(allData)
  {
    UpcomingHeader(|allData.tracks| - (allData.currentIdx + 1))
      + BulletLines(allData.tracks[allData.currentIdx + 1..])
  }

  method FormatUpcomingSongs(allData: MpdState) returns (r: string)
    requires ValidIndex(allData)
    ensures r == UpcomingText(allData)
  {
    var songsRemaining := |allData.tracks| - (allData.currentIdx + 1);
    r := "${hr}\n" + Decimal(songsRemaining) + " Songs left, next up...\n";
    var startIdx := allData.currentIdx + 1;
    var upcomingTracks := allData.tracks[startIdx..];
    var i := 0;
    while i < |upcomingTracks|
      invariant 0 <= i <= |upcomingTracks|
      invariant r == UpcomingHeader(songsRemaining) + BulletLines(upcomingTracks[..i])
    {
      assert upcomingTracks[..i + 1][..i] == upcomingTracks[..i];
      r := r + Bullet + SongMinimal(upcomingTracks[i]);
      i := i + 1;
    }
    assert upcomingTracks[..i] == upcomingTracks;
  }

  /// The count in the upcoming header reads back as the number of tracks after
  /// the current one, which is the number of bullet lines that follow it.
  lemma UpcomingCount(allData: MpdState)
    requires ValidIndex(allData)
    ensures var ups := allData.tracks[allData.currentIdx + 1..];
      && UpcomingText(allData) == "${hr}\n" + Decimal(|ups|) + " Songs left, next up...\n" + BulletLines(ups)
      && DigitsValue(Decimal(|ups|)) == |allData.tracks| - allData.currentIdx - 1
  {
    DecimalRoundTrip(|allData.tracks| - allData.currentIdx - 1);
  }

  /// What `Format` returns: nothing for an empty playlist, otherwise the
  /// header, the current song and the upcoming songs.
  function Rendered(data: MpdState, tick: nat): string
    requires HasData(data) ==> ValidIndex(data)
  {
    if !HasData(data) then "" else Header + CurrentSongText(data, tick) + UpcomingText(data)
  }

  method Format(data: MpdState, tick: nat) returns (r: string)
    requires HasData(data) ==> ValidIndex(data)
    ensures r == Rendered(data, tick)
    ensures r == "" <==> data.tracks == []
    ensures data.tracks != [] ==> Header <= r
  {
    if !HasData(data) {
      return "";
    }
    r := Header;
    var current := FormatCurrentSong(data, tick);
    r := r + current;
    var upcoming := FormatUpcomingSongs(data);
    r := r + upcoming;
    assert r == Header + current + upcoming;
    PrefixOfConcat(Header, current, upcoming);
  }
}
