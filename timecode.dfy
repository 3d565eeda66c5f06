/// The `M:SS` play-time format shared by the renderers:
/// `fmt.Sprintf("%01d:%02d", v/60, v%60)` with Go's truncating `/` and `%`.
module Timecode {
  import opened GoFmt

  /// `asTimecode` on whole seconds. Minutes are unpadded; seconds are padded to
  /// two bytes. Negative inputs follow Go: both fields carry the sign.
  function AsTimecode(seconds: int): (r: string)
    ensures |r| >= 4
  {
    PadInt(Quot(seconds, 60), 1) + ":" + PadInt(Rem(seconds, 60), 2)
  }

  /// An independent reader of `M:SS`: a run of digits for the minutes, a
  /// colon, exactly two digits for the seconds, and fewer than 60 seconds.
  function ParseTimecode(t: string): Option<nat>
  {
    if |t| < 4 || t[|t| - 3] != ':' then None
    else
      var minutes, secs := t[..|t| - 3], t[|t| - 2..];
      if !AllDigits(minutes) || !AllDigits(secs) || DigitsValue(secs) >= 60 then None
      else Some(60 * DigitsValue(minutes) + DigitsValue(secs))
  }

  /// The reader accepts minutes, a colon and two seconds digits below 60,
  /// and gives back the seconds they stand for.
  lemma ParseFields(mins: string, secs: string, seconds: nat)
    requires 1 <= |mins| && AllDigits(mins)
    requires |secs| == 2 && AllDigits(secs) && DigitsValue(secs) < 60
    requires seconds == 60 * DigitsValue(mins) + DigitsValue(secs)
    ensures |mins + ":" + secs| >= 4
    ensures ParseTimecode(mins + ":" + secs) == Some(seconds)
  {
    var t := mins + ":" + secs;
    assert t[..|t| - 3] == mins;
    assert t[|t| - 2..] == secs;
  }

  /// On non-negative seconds Go's truncating `/` and `%` agree with Dafny's,
  /// and `%01d` prints the minutes without padding.
  lemma Fields(seconds: nat)
    ensures AsTimecode(seconds) == Decimal(seconds / 60) + ":" + PadInt(seconds % 60, 2)
  {
  }

  /// For non-negative seconds the format is the minutes in decimal, a colon
  /// and the seconds below 60 in exactly two digits: it reads back to the
  /// number of seconds formatted.
  lemma TimecodeRoundTrip(seconds: nat)
    ensures ParseTimecode(AsTimecode(seconds)) == Some(seconds)
    ensures |AsTimecode(seconds)| >= 4
  {
    var m, s := seconds / 60, seconds % 60;
    TwoPlaces(s);
    Fields(seconds);
    assert 60 * m + s == seconds;
    DecimalRoundTrip(m);
    ParseFields(Decimal(m), PadInt(s, 2), seconds);
  }

  /// `int64(val)` for a float in the int64 range: the fraction is dropped,
  /// rounding toward zero.
  function Trunc(x: real): (n: int)
    ensures 0.0 <= x ==> 0 <= n && n as real <= x < n as real + 1.0
    ensures x < 0.0 ==> n <= 0 && n as real - 1.0 < x <= n as real
  {
    if x >= 0.0 then x.Floor else -((-x).Floor)
  }

  /// `asTimecode(val float64)`: the timecode of the whole seconds in `val`.
  /// For a non-negative time it reads back to those whole seconds.
  function FloatTimecode(val: real): (r: string)
    ensures |r| >= 4
    ensures 0.0 <= val ==> ParseTimecode(r).Some? && ParseTimecode(r).value == val.Floor
  {
    var n := Trunc(val);
    assert n >= 0 ==> ParseTimecode(AsTimecode(n)).Some? && ParseTimecode(AsTimecode(n)).value == n by {
      if n >= 0 {
        TimecodeRoundTrip(n);
      }
    }
    AsTimecode(n)
  }

  lemma ExampleTwoFive()
    ensures AsTimecode(125) == "2:05"
  {
    OneDigit(2, "2", "02");
    OneDigit(5, "5", "05");
    FourBytes("2", "05", "2:05");
    FromFields(125, "2", "05", "2:05");
  }

  lemma ExampleZero()
    ensures AsTimecode(0) == "0:00"
  {
    OneDigit(0, "0", "00");
    FourBytes("0", "00", "0:00");
    FromFields(0, "0", "00", "0:00");
  }

  /// The timecode of `v` from its two printed fields.
  lemma FromFields(v: nat, mins: string, secs: string, t: string)
    requires Decimal(v / 60) == mins && PadInt(v % 60, 2) == secs && mins + ":" + secs == t
    ensures AsTimecode(v) == t
  {
    Fields(v);
  }

  /// A single digit printed with `%01d` and with `%02d`.
  lemma OneDigit(d: nat, one: string, two: string)
    requires d < 10 && one == [DigitChar(d)] && two == ['0', DigitChar(d)]
    ensures Decimal(d) == one && PadInt(d, 1) == one && PadInt(d, 2) == two
  {
    assert Decimal(d) == one;
    assert Zeros(1) == "0";
    assert PadInt(d, 2) == PadNatural(d, 2) == Zeros(1) + one;
  }

  /// One minutes digit, a colon and two seconds digits, compared byte by byte.
  lemma FourBytes(m: string, sec: string, t: string)
    requires |m| == 1 && |sec| == 2 && |t| == 4
    requires t[0] == m[0] && t[1] == ':' && t[2] == sec[0] && t[3] == sec[1]
    ensures m + ":" + sec == t
  {
  }
}
