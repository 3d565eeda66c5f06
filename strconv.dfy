/// The integer parsing both MPD renderers share: `strconv.ParseInt(s, 10, 64)`
/// and the `strToInt64` wrapper that turns every failure into 0
/// (cmd/conky-mpd/main.go and cmd/conky-mpd/internal/mpd/get.go hold the same
/// wrapper).
module Strconv {
  import opened GoFmt

  /// `strconv.ParseInt(s, 10, 64)`: an optional `+` or `-`, then at least one
  /// decimal digit and nothing else, with a value inside the int64 range.
  /// Base 10 admits no underscores, no prefix and no surrounding spaces.
  function ParseInt64(s: string): (r: Option<int>)
    ensures r.Some? ==> MinInt64 <= r.value <= MaxInt64
    ensures s == [] ==> r == None
  {
    var signed := |s| > 0 && (s[0] == '-' || s[0] == '+');
    var body := if signed then s[1..] else s;
    if body == [] || !AllDigits(body) then None
    else
      var v: int := if signed && s[0] == '-' then -(DigitsValue(body) as int) else DigitsValue(body);
      if MinInt64 <= v <= MaxInt64 then Some(v) else None
  }

  /// `strToInt64`: the parsed value, or 0 when parsing fails.
  function StrToInt64(s: string): (r: Int64)
    ensures ParseInt64(s).Some? ==> r == ParseInt64(s).value
    ensures ParseInt64(s).None? ==> r == 0
  {
    match ParseInt64(s)
    case Some(v) => v
    case None => 0
  }

  /// Printing an int64 in decimal and parsing it back gives the same integer.
  lemma FormatIntRoundTrip(n: int)
    requires MinInt64 <= n <= MaxInt64
    ensures ParseInt64(FormatInt(n)) == Some(n)
    ensures StrToInt64(FormatInt(n)) == n
  {
    var s := FormatInt(n);
    if n >= 0 {
      assert s[0] != '-' && s[0] != '+' by { assert IsDigit(s[0]); }
    } else {
      assert s[0] == '-';
    }
  }

  /// A decimal numeral outside the int64 range does not parse, so
  /// `strToInt64` yields 0 for it.
  lemma OutOfRangeIsZero(n: int)
    requires n < MinInt64 || MaxInt64 < n
    ensures ParseInt64(FormatInt(n)) == None
    ensures StrToInt64(FormatInt(n)) == 0
  {
    var s := FormatInt(n);
    if n >= 0 {
      assert s[0] != '-' && s[0] != '+' by { assert IsDigit(s[0]); }
    } else {
      assert s[0] == '-';
    }
  }

  /// Any byte that is not a digit, other than a leading sign, makes parsing
  /// fail, so `strToInt64` yields 0.
  lemma NonDigitIsZero(s: string, i: nat)
    requires i < |s| && !IsDigit(s[i])
    requires i == 0 ==> s[i] != '-' && s[i] != '+'
    ensures ParseInt64(s) == None && StrToInt64(s) == 0
  {
    var signed := |s| > 0 && (s[0] == '-' || s[0] == '+');
    var body := if signed then s[1..] else s;
    if signed {
      assert body[i - 1] == s[i];
    } else {
      assert body[i] == s[i];
    }
  }

  /// What `strconv.ParseInt` accepts beyond the canonical numeral: a leading
  /// `+` or `-` and leading zeros. Such a numeral parses to its value ("-0"
  /// to 0) whenever that value is in range.
  lemma ParsePadded(sign: string, k: nat, n: nat)
    requires sign == "" || sign == "+" || sign == "-"
    requires if sign == "-" then MinInt64 <= -(n as int) else n <= MaxInt64
    ensures ParseInt64(sign + Zeros(k) + Decimal(n)) == Some(if sign == "-" then -(n as int) else n)
  {
    var digits := Zeros(k) + Decimal(n);
    LeadingZeros(k, Decimal(n));
    DecimalRoundTrip(n);
    assert sign + Zeros(k) + Decimal(n) == sign + digits;
    ParseSigned(sign, digits, if sign == "-" then -(n as int) else n);
  }

  /// An optional sign followed by digits parses to their signed value.
  lemma ParseSigned(sign: string, digits: string, v: int)
    requires sign == "" || sign == "+" || sign == "-"
    requires |digits| > 0 && AllDigits(digits)
    requires v == if sign == "-" then -(DigitsValue(digits) as int) else DigitsValue(digits)
    requires MinInt64 <= v <= MaxInt64
    ensures ParseInt64(sign + digits) == Some(v)
  {
    var s := sign + digits;
    if sign == "" {
      assert s == digits;
      assert IsDigit(s[0]);
    } else {
      assert s[1..] == digits;
    }
  }

  /// A track tag such as "3/12" (track 3 of 12) is not a base-10 integer.
  lemma TrackOfTotalIsZero()
    ensures StrToInt64("3/12") == 0
  {
    NonDigitIsZero("3/12", 1);
  }
}
