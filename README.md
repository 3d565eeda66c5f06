# bunsen-tools now-playing renderers, in Dafny

This project models the text renderers of bunsen-tools. They print the song a
music player is playing as a Conky widget: a header, one `Label:${alignr}value`
line per non-empty field, the play time, and (in the current MPD renderer) a
progress bar and the songs still to come. Values too wide for 20 bytes scroll
with the wall clock: in the current MPD renderer those longer than 20 bytes,
in the two older ones those of 20 bytes or more. Three revisions are
modelled, each as written:

- `mpd_format.dfy` (`MpdFormat`) is the current MPD renderer,
  `cmd/conky-mpd/internal/format/format.go`. It prints the header, the current
  song with a progress bar, and one bullet line per upcoming song. Its `scroll`
  slides a window over the value itself.
- `mpd_legacy.dfy` (`MpdLegacy`) is the older MPD renderer,
  `cmd/conky-mpd/main.go`. It prints the current track only. Its `scroll`
  cycles through `value + "/"`.
- `clementine.dfy` (`Clementine`) is the D-Bus renderer,
  `cmd/conky-clementine/main.go`. It adds a cover-art line, joins artists and
  genres with spaces, and takes times in microseconds. Its `scroll` cycles
  through `value + " | "`. Its `safeAs*` helpers read D-Bus variants and turn an
  absent value into a zero value.
- `mpd_get.dfy` (`MpdGet`) is the pure part of `cmd/conky-mpd/internal/mpd/get.go`:
  - turning MPD attribute maps into `Track` records;
  - assembling the playlist snapshot.
- `domain.dfy` (`Domain`) holds the `Track` and `MpdState` records of
  `cmd/conky-mpd/internal/domain/types.go`.
- Shared pieces:
  - `gofmt.dfy` (`GoFmt`): Go's `%d`, `%0Nd`, truncating `/` and `%`,
    `strings.Join`, and the doubled-and-doubled scroll buffer.
  - `strconv.dfy` (`Strconv`): `strconv.ParseInt(s, 10, 64)` and the
    `strToInt64` wrapper.
  - `timecode.dfy` (`Timecode`): the `M:SS` format, with an independent reader
    of it.

Some conventions hold throughout the model:

- Strings are byte strings (`seq<char>`, one char per byte). Lengths and slices
  count bytes, as Go's `len` and `s[a:b]` do.
- The wall clock `time.Now().Unix()` is the parameter `tick`.
- MPD's `float64` seconds are exact reals. `asTimecode` truncates them toward
  zero (`Timecode.Trunc`, Go's `int64(val)`); the progress bar divides them as
  they are.
- The Go program accumulates text through a `*string` (`addTrackInfo(&r, …)`). Each
  such helper is a method that takes the text so far and returns it extended.
  Its contract says that the old text is kept as a prefix and at most one line
  is appended: nothing for an empty value, otherwise exactly the track-info (or
  art) line.
- Each renderer's `format` is a method, proved equal to a specification function
  `Rendered`. The lemmas then state what that text contains.
- The scroll functions are specified by the window they show. In the current
  renderer the window is the slice `val[s .. s + l]`, never touching the last
  byte. In the two older ones, byte `k` of the window is byte
  `(start + k) mod |unit|` of the repeated unit. Each scroll has a periodicity
  lemma.

## Model

| member | source | states |
|---|---|---|
| GoFmt.Decimal | cmd/conky-mpd/internal/format/format.go:36 | `%d` of a count is at least one byte, all digits, with no leading zero unless the count is 0 |
| GoFmt.DecimalRoundTrip | cmd/conky-mpd/internal/format/format.go:36 | the printed count reads back as the count |
| GoFmt.PadInt | cmd/conky-mpd/internal/format/format.go:88 | `%0Nd` gives exactly max(N, sign + digits) bytes; for n >= 0 they are digits whose value is n, and with N <= 1 the plain numeral of `%d`; for n < 0 they are a minus sign, then digits whose value is -n |
| GoFmt.TwoPlaces | cmd/conky-mpd/internal/format/format.go:88 | a seconds value below 60 padded with `%02d` takes exactly two bytes |
| GoFmt.Quot | cmd/conky-mpd/internal/format/format.go:86 | Go's `/` truncates toward zero and agrees with floor division on non-negative operands |
| GoFmt.Rem | cmd/conky-mpd/internal/format/format.go:87 | Go's `%` satisfies a == q*b + r; r lies in [0, b) for a >= 0 and in (-b, 0] for a < 0 |
| GoFmt.Fourfold | cmd/conky-mpd/main.go:147-149 | doubling the unit twice gives four times its length |
| GoFmt.FourfoldAt | cmd/conky-mpd/main.go:147-149 | byte i of the doubled-twice buffer is byte i mod |unit| of the unit |
| GoFmt.FourfoldWindow | cmd/conky-mpd/main.go:152 | every byte of an in-bounds window of that buffer is the unit's byte at its position mod |unit| |
| GoFmt.Join | cmd/conky-clementine/main.go:46 | `strings.Join` with a non-empty separator is empty iff there are no elements or the only one is empty; the first element is a prefix of the result |
| Strconv.ParseInt64 | cmd/conky-mpd/internal/mpd/get.go:58 | a successful base-10 parse lies within the int64 range; "" never parses |
| Strconv.ParsePadded | cmd/conky-mpd/internal/mpd/get.go:57-63 | a numeral with a leading "+" or "-" and any number of leading zeros parses to its signed value when that value is in range ("-0" to 0) |
| Strconv.StrToInt64 | cmd/conky-mpd/internal/mpd/get.go:57-63 | the result is the parsed value when parsing succeeds, and 0 on any failure |
| Strconv.FormatIntRoundTrip | cmd/conky-mpd/main.go:155-161 | an int64 printed in decimal parses back to itself |
| Strconv.OutOfRangeIsZero | cmd/conky-mpd/internal/mpd/get.go:57-63 | a decimal numeral outside int64 fails to parse and reads as 0 |
| Strconv.NonDigitIsZero | cmd/conky-mpd/internal/mpd/get.go:57-63 | any non-digit byte, other than a leading sign, makes the parse fail and reads as 0 |
| Strconv.TrackOfTotalIsZero | cmd/conky-mpd/internal/mpd/get.go:47 | the tag "3/12" reads as 0 |
| Timecode.AsTimecode | cmd/conky-mpd/internal/format/format.go:86-88 | `%01d:%02d` of the truncated minutes and seconds of an integer count of seconds, any sign; at least 4 bytes |
| Timecode.Trunc | cmd/conky-mpd/internal/format/format.go:85 | `int64(val)` drops the fraction toward zero: for val >= 0 it is the largest integer not above val, for val < 0 the smallest not below it |
| Timecode.FloatTimecode | cmd/conky-mpd/internal/format/format.go:84-89 | `asTimecode` of a float: at least 4 bytes, and for a non-negative time it reads back to the whole seconds in it |
| Timecode.ParseFields | cmd/conky-mpd/internal/format/format.go:88 | minutes, ":" and two digits below 60 read back as 60 * minutes + seconds |
| Timecode.Fields | cmd/conky-mpd/internal/format/format.go:86-88 | on non-negative seconds the minutes are printed unpadded, as `%d` of v / 60, and the seconds as `%02d` of v % 60 |
| Timecode.TimecodeRoundTrip | cmd/conky-mpd/internal/format/format.go:84-89 | `asTimecode` of non-negative whole seconds reads back to those seconds, so the seconds field is two digits below 60; the text is at least 4 bytes |
| Timecode.ExampleTwoFive | cmd/conky-mpd/internal/format/format.go:84-89 | 125 seconds print as "2:05" |
| Timecode.ExampleZero | cmd/conky-mpd/internal/format/format.go:84-89 | 0 seconds print as "0:00" |
| MpdFormat.Scroll | cmd/conky-mpd/internal/format/format.go:91-99 | a value of at most l bytes is returned unchanged; a longer one gives exactly l bytes, the window val[s .. s+l] with s = tick mod (len - l), which never reaches the last byte |
| MpdFormat.ScrollPeriodic | cmd/conky-mpd/internal/format/format.go:95-97 | the scroll repeats every len(val) - l ticks |
| MpdFormat.Etcetera | cmd/conky-mpd/internal/format/format.go:101-106 | a value shorter than l is kept; any other becomes its first l-3 bytes and "...", exactly l bytes |
| MpdFormat.EtceteraCutsExactFit | cmd/conky-mpd/internal/format/format.go:102 | a value of exactly l bytes that does not already end in "..." is altered |
| MpdFormat.EtceteraFitting | cmd/conky-mpd/internal/format/format.go:101-106 | with `<=`: a value of at most l bytes is kept, and only a longer one is cut to l bytes ending in "..." |
| MpdFormat.EtceteraFittingBound | cmd/conky-mpd/internal/format/format.go:101-106 | the corrected version never returns more than l bytes and keeps the value exactly when it fits |
| MpdFormat.TrackInfoLine | cmd/conky-mpd/internal/format/format.go:65-72 | the line `addTrackInfo` appends; its shape is stated by TrackInfoLineShape |
| MpdFormat.TrackInfoLineShape | cmd/conky-mpd/internal/format/format.go:65-72 | the appended line is empty iff the value is; otherwise it starts with the label and `:${alignr}`, ends with a newline, and is |label| + 11 + min(len, 20) bytes |
| MpdFormat.AddTrackInfo | cmd/conky-mpd/internal/format/format.go:65-72 | the text so far is kept as a prefix and exactly the track-info line is appended |
| MpdFormat.RatioOf | cmd/conky-mpd/internal/format/format.go:30 | the float quotient elapsed/length is NaN iff both are 0, +Inf or -Inf iff only the length is 0 (with the elapsed time's sign), and otherwise the number that times the length gives the elapsed time |
| MpdFormat.Clamp | cmd/conky-mpd/internal/format/format.go:75-79 | below 0 (and -Inf) becomes 0, above 1 (and +Inf) becomes 1, [0, 1] is kept, NaN stays NaN |
| MpdFormat.Percent | cmd/conky-mpd/internal/format/format.go:74-80 | the printed value is NaN iff the ratio is, never infinite, and otherwise within [0, 100] |
| MpdFormat.FixedTwo | cmd/conky-mpd/internal/format/format.go:81 | `%.2f` of a non-negative value is digits, a point and two digits, which read as h hundredths with h the integer nearest 100 * v (a half rounding up), with no leading zero in the integer part |
| MpdFormat.PercentText | cmd/conky-mpd/internal/format/format.go:81 | how `%.2f` spells a value: two decimals for a number, "+Inf", "-Inf" or "NaN" otherwise |
| MpdFormat.BarLine | cmd/conky-mpd/internal/format/format.go:80-81 | the `${execbar expr …}` line of the clamped percentage |
| MpdFormat.AddBar | cmd/conky-mpd/internal/format/format.go:74-82 | the clamp-then-scale procedure appends exactly the bar line of the clamped percentage |
| MpdFormat.BarValue | cmd/conky-mpd/internal/format/format.go:30 | on the untruncated float times, the bar is NaN exactly when elapsed and length are both 0 and otherwise lies in [0, 100]; over a positive length it is 100 * elapsed / length for 0 <= elapsed <= length, 0 below and 100 above |
| MpdFormat.Playtime | cmd/conky-mpd/internal/format/format.go:29 | the play-time value is never empty, whatever the sign of the times, so its line is always printed |
| MpdFormat.HasData | cmd/conky-mpd/internal/format/format.go:53-55 | a state has data when its playlist is not empty |
| MpdFormat.CurrentSongText | cmd/conky-mpd/internal/format/format.go:22-32 | the specification of `formatCurrentSong`: Title, Artists and Album lines, the Playtime line, then the bar of elapsed / length |
| MpdFormat.FormatCurrentSong | cmd/conky-mpd/internal/format/format.go:22-32 | the text is the Title, Artists and Album lines (each skipped when empty), then the Playtime line, then the bar |
| MpdFormat.SongMinimal | cmd/conky-mpd/internal/format/format.go:49-51 | the title, " \| " and the artist, then one newline: \|title\| + \|artist\| + 4 bytes |
| MpdFormat.BulletLines | cmd/conky-mpd/internal/format/format.go:43-45 | the seven-byte bullet literal, then the song line, for each track in order |
| MpdFormat.BulletLinesAppend | cmd/conky-mpd/internal/format/format.go:43-45 | the bullet lines of a concatenated list are the lines of the first part, then the lines of the second |
| MpdFormat.BulletLineAt | cmd/conky-mpd/internal/format/format.go:43-45 | the line of track k follows the lines of all earlier tracks and precedes those of all later ones |
| MpdFormat.UpcomingHeader | cmd/conky-mpd/internal/format/format.go:36 | the rule and the `%d Songs left, next up...` line |
| MpdFormat.UpcomingText | cmd/conky-mpd/internal/format/format.go:34-47 | the specification of `formatUpcomingSongs`: the header with the number of later tracks, then their bullet lines |
| MpdFormat.FormatUpcomingSongs | cmd/conky-mpd/internal/format/format.go:34-47 | the loop yields the remaining-songs header, then one bullet line per track after the current one, in playlist order, each starting with the seven-byte bullet literal |
| MpdFormat.UpcomingCount | cmd/conky-mpd/internal/format/format.go:35-36 | the count in the header reads back as len(Tracks) - (CurrentIdx + 1), the number of bullet lines that follow |
| MpdFormat.Rendered | cmd/conky-mpd/internal/format/format.go:11-20 | the specification of `Format`: "" without tracks, else the header, the current song and the upcoming songs |
| MpdFormat.Format | cmd/conky-mpd/internal/format/format.go:11-20 | the text is "" exactly when the playlist is empty; otherwise it is the header, then the current-song text, then the upcoming-songs text |
| MpdGet.Attr | cmd/conky-mpd/internal/mpd/get.go:43 | a missing attribute reads as "" |
| MpdGet.GetTrack | cmd/conky-mpd/internal/mpd/get.go:41-55 | each field comes from its attribute (OriginalDate as the year); track and disc numbers go through strToInt64, and are 0 when missing |
| MpdGet.TrackOfTotalGivesZero | cmd/conky-mpd/internal/mpd/get.go:47 | a track tag "3/12" gives track number 0 |
| MpdGet.GetMpdState | cmd/conky-mpd/internal/mpd/get.go:28-36 | one track per playlist entry, in order, each getTrack of its entry; the current index is strToInt64 of "song" (0 when absent); the elapsed time comes from "elapsed" |
| MpdLegacy.Scroll | cmd/conky-mpd/main.go:143-153 | a value strictly shorter than l is unchanged; otherwise exactly l bytes, byte k being byte (tick mod (l+1) + k) mod (len+1) of val + "/" |
| MpdLegacy.ScrollPeriodic | cmd/conky-mpd/main.go:151 | the scroll repeats every l + 1 ticks |
| MpdLegacy.ExactFitScrolls | cmd/conky-mpd/main.go:144-152 | a value of exactly l bytes still scrolls: at some ticks it shows "/" and then the value without its last byte |
| MpdLegacy.TrackInfoLine | cmd/conky-mpd/main.go:69-76 | the line `addTrackInfo` appends; its shape is stated by TrackInfoLineShape |
| MpdLegacy.TrackInfoLineShape | cmd/conky-mpd/main.go:69-76 | the line is empty iff the value is; otherwise it starts with the label and `:${alignr}`, ends with a newline, and shows the whole value only when it is shorter than 20 bytes |
| MpdLegacy.AddTrackInfo | cmd/conky-mpd/main.go:69-76 | the text so far is kept as a prefix and exactly the track-info line is appended |
| MpdLegacy.Playtime | cmd/conky-mpd/main.go:53 | the play-time value of the float times is never empty |
| MpdLegacy.HasData | cmd/conky-mpd/main.go:57-59 | a state has data when the current track has a title |
| MpdLegacy.Rendered | cmd/conky-mpd/main.go:43-55 | the specification of `format`: "" without a title, else the header and the five track-info lines |
| MpdLegacy.Format | cmd/conky-mpd/main.go:43-59 | the text is "" iff the title is empty; otherwise it starts with the header and lists Title, Artists, Album, Genres and Playtime in that order, each skipped when empty |
| MpdLegacy.EndsWithPlaytime | cmd/conky-mpd/main.go:53-54 | with a title, the text always ends with the Playtime line `asTimecode(pos) + " / " + asTimecode(len)` |
| MpdLegacy.CurrentTrackOf | cmd/conky-mpd/main.go:111-124 | the current track's fields come from the metadata and status attributes, missing ones reading as ""; a song without a title renders nothing |
| Clementine.ScrollUnit | cmd/conky-clementine/main.go:128 | the scroll unit is the value followed by the separator " \| " |
| Clementine.ScrollWindow | cmd/conky-clementine/main.go:128-133 | byte k of the window at offset tick mod 2(len+3) is byte (tick + k) mod (len+3) of the unit, and the window has exactly l bytes |
| Clementine.Scroll | cmd/conky-clementine/main.go:124-134 | a value strictly shorter than l is unchanged; otherwise exactly l bytes, cycling through val + " | " from the clock's position |
| Clementine.ScrollPeriodic | cmd/conky-clementine/main.go:131-133 | the scroll repeats every len(val) + 3 ticks, half the 2(len+3) the offset is taken modulo |
| Clementine.TrackInfoLine | cmd/conky-clementine/main.go:61-67 | the line is empty iff the value is; otherwise it starts with the label and `:${alignr}`, ends with a newline, and is |label| + 11 + min(len, 20) bytes, the value shown whole only below 20 bytes |
| Clementine.AddTrackInfo | cmd/conky-clementine/main.go:61-67 | the text so far is kept as a prefix and exactly the track-info line is appended |
| Clementine.ArtLine | cmd/conky-clementine/main.go:53-59 | the art line is empty iff the art URL is; otherwise it starts with the rule and image command and ends with a newline |
| Clementine.AddArt | cmd/conky-clementine/main.go:53-59 | the text so far is kept and exactly the art line is appended |
| Clementine.AsTimecode | cmd/conky-clementine/main.go:117-122 | microseconds truncated toward zero to whole seconds, then `%01d:%02d`; at least 4 bytes |
| Clementine.MicrosRoundTrip | cmd/conky-clementine/main.go:117-122 | a non-negative time in microseconds prints as a timecode that reads back to its whole seconds |
| Clementine.ExampleTwoFive | cmd/conky-clementine/main.go:117-122 | 125,000,000 microseconds print as "2:05" |
| Clementine.Playtime | cmd/conky-clementine/main.go:49 | the play-time value is never empty, whatever the sign of the times |
| Clementine.Rendered | cmd/conky-clementine/main.go:42-51 | the specification of `format`: the header, the art line, then the five track-info lines |
| Clementine.Format | cmd/conky-clementine/main.go:42-51 | the text always starts with the header and is the art, Title, Artists, Album, Genres and Playtime lines in that order, each skipped when empty |
| Clementine.ArtistsLineAbsent | cmd/conky-clementine/main.go:46 | the Artists line is skipped exactly when there is no artist or the only artist is "" |
| Clementine.Lookup | cmd/conky-clementine/main.go:98 | a key the metadata lacks gives the nil variant |
| Clementine.SafeAsString | cmd/conky-clementine/main.go:148-153 | nil reads as "", a string as itself |
| Clementine.SafeAsStringSlice | cmd/conky-clementine/main.go:141-146 | nil reads as the empty list, a string list as itself |
| Clementine.SafeAsInt32 | cmd/conky-clementine/main.go:155-160 | nil reads as 0, an int32 as itself |
| Clementine.SafeAsInt64 | cmd/conky-clementine/main.go:162-167 | nil reads as 0, an int64 as itself |
| Clementine.CurrentTrackOf | cmd/conky-clementine/main.go:97-110 | every field is the `safeAs*` reading of its metadata key (title, album, artists, genres, track and disc numbers, year, length, art URL) and the position is the position property; missing keys give zero values; empty metadata gives the all-zero track |
| Clementine.EmptyMetadataRender | cmd/conky-clementine/main.go:97-110 | with empty metadata the text is the header and the Playtime line alone |
| Clementine.OnlyPlaytime | cmd/conky-clementine/main.go:42-50 | a track with no art, title, artists, album or genres renders as the header and the Playtime line |

## Left out

- `cmd/mpd-artfetch/main.go` is not part of this model. It is syslog, an MPD
  event loop, an `ffmpeg` process and file copying: all I/O.
- Network and bus access (`mpd.Dial`, `PlaylistInfo`, `Status`, `CurrentSong`,
  `dbus.SessionBus`, `getPlayerProperty`) and their error paths. Their answers
  (attribute maps, the D-Bus metadata map, the position) are inputs.
- `main` in each program, the exit codes, and the debug print of the metadata
  to stderr. This includes the case where `conky-clementine` passes a nil state
  to `format` after a bus error, which panics.
- The clock is one `tick` per rendering. The Go program reads `time.Now()` once per
  `scroll` call, so two lines of one rendering could in principle see
  different seconds.
- Negative clock values are not modelled: `tick` is a `nat`. Go's `%` on a
  negative Unix time would give a negative slice index.
- `strToFloat64` (`strconv.ParseFloat`) is the parameter `seconds`, which gives
  an exact real. The spellings ParseFloat also accepts for infinities and NaN
  ("Inf", "NaN") are not modelled.
- Timecode.Trunc: `int64(val)` of a float outside the int64 range is not
  modelled; the model truncates any real.
- MpdFormat.FixedTwo: `%.2f` is modelled as rounding half up on exact reals.
  Go rounds the binary `float64` value, which can differ in the last digit.
  Its `+Inf`, `-Inf` and `NaN` spellings are modelled.
- MpdFormat.RatioOf: the quotient is exact; Go rounds it to the nearest
  `float64`. Go's special cases are kept: NaN for 0/0, and an infinity with
  the elapsed time's sign over a zero length. NaN passes the clamp and is
  printed as "NaN". Signed zeros are not distinguished.
- MpdFormat.BarValue: the percentage is 100 times the exact quotient of the
  unrounded times, not the `float64` product Go computes.
- MpdFormat.AddBar: prints the exact-real percentage; the `float64` rounding
  of the division and of the multiplication by 100 is not modelled.
- `asPath` (`url.Parse(...).Path`) is the uninterpreted parameter `asPath`.
- Panics become preconditions:
  - the `Tracks[CurrentIdx]` index in `formatCurrentSong` (`ValidIndex`);
  - `etcetera` with `l < 3`;
  - a `safeAs*` type assertion on a value of the wrong type (`WellTyped`).
- UTF-8 is not modelled; all lengths count bytes. The bullet is the seven
  bytes of the Go literal, `C3 A2 E2 82 AC C2 A2`.
- The difference between a nil and an empty Go slice is not modelled. Both are
  the empty sequence.
- Timecode.TimecodeRoundTrip: concrete examples are stated for 0 and 125
  seconds only. The 59-second case is covered by the round trip but not stated
  as its own example.

## Findings

| source | as written | input that shows it | evidently intended | confidence | as-written member | corrected member |
|---|---|---|---|---|---|---|
| cmd/conky-mpd/internal/format/format.go:102 | `etcetera` keeps a value only when `len(val) < l`, so a value of exactly `l` bytes that fits is still cut to `l-3` bytes plus "..." | `etcetera("abcdef", 6)` gives "abc..." | keep every value of at most `l` bytes (`<=`, as the same file's `scroll` does) | medium, not executed; `etcetera` is not called in format.go | MpdFormat.EtceteraCutsExactFit | MpdFormat.EtceteraFittingBound |
