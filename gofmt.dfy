/// Go's integer formatting as the renderers use it: the `%d` and `%0Nd` verbs
/// of fmt, Go's truncating `/` and `%`, and strings.Join.
///
/// Every `string` in this project is a Go byte string: each char stands for
/// one byte, and lengths and slices count bytes, exactly as `len(s)` and
/// `s[a:b]` do in Go.
module GoFmt {

  /// The (value, ok) and (value, err) results of Go calls.
  datatype Option<T> = None | Some(value: T)

  const MinInt64: int := -0x8000_0000_0000_0000
  const MaxInt64: int := 0x7FFF_FFFF_FFFF_FFFF
  const MinInt32: int := -0x8000_0000
  const MaxInt32: int := 0x7FFF_FFFF

  type Int64 = x: int | MinInt64 <= x <= MaxInt64
  type Int32 = x: int | MinInt32 <= x <= MaxInt32

  predicate IsDigit(c: char) { '0' <= c <= '9' }

  predicate AllDigits(s: string) { forall i :: 0 <= i < |s| ==> IsDigit(s[i]) }

  function DigitChar(d: nat): (c: char)
    requires d < 10
    ensures IsDigit(c) && (c as int) - ('0' as int) == d
  {
    ((d + '0' as int) as char)
  }

  function DigitValue(c: char): (d: nat)
    requires IsDigit(c)
    ensures d < 10 && DigitChar(d) == c
  {
    (c as int) - ('0' as int)
  }

  /// The value of a string of decimal digits, most significant digit first.
  function DigitsValue(s: string): nat
    requires AllDigits(s)
  {
    if s == [] then 0 else DigitsValue(s[..|s| - 1]) * 10 + DigitValue(s[|s| - 1])
  }

  /// The decimal numeral of `n`, as `%d` prints a non-negative integer:
  /// at least one digit and no leading zero.
  function Decimal(n: nat): (s: string)
    ensures |s| >= 1 && AllDigits(s)
    ensures s[0] == '0' ==> n == 0
  {
    if n < 10 then [DigitChar(n)] else Decimal(n / 10) + [DigitChar(n % 10)]
  }

  /// Reading back a printed numeral gives the number printed.
  lemma {:induction false} DecimalRoundTrip(n: nat)
    ensures DigitsValue(Decimal(n)) == n
  {
    if n >= 10 {
      var s := Decimal(n);
      assert s[..|s| - 1] == Decimal(n / 10);
      DecimalRoundTrip(n / 10);
    }
  }

  /// Leading zeros do not change the value of a numeral.
  lemma {:induction false} LeadingZeros(k: nat, s: string)
    requires AllDigits(s)
    ensures AllDigits(Zeros(k) + s) && DigitsValue(Zeros(k) + s) == DigitsValue(s)
  {
    if s == [] {
      assert Zeros(k) + s == Zeros(k);
      ZerosValue(k);
    } else {
      var t := Zeros(k) + s;
      assert t[..|t| - 1] == Zeros(k) + s[..|s| - 1];
      LeadingZeros(k, s[..|s| - 1]);
    }
  }

  lemma {:induction false} ZerosValue(k: nat)
    ensures AllDigits(Zeros(k)) && DigitsValue(Zeros(k)) == 0
  {
    if k > 0 {
      assert Zeros(k)[..k - 1] == Zeros(k - 1);
      ZerosValue(k - 1);
    }
  }

  function Zeros(k: nat): (z: string)
    ensures |z| == k && forall i :: 0 <= i < k ==> z[i] == '0'
  {
    seq(k, _ => '0')
  }

  /// `s` left-padded with zeros to at least `width` bytes.
  function ZeroPad(s: string, width: nat): (r: string)
    ensures |r| == if |s| < width then width else |s|
    ensures r[|r| - |s|..] == s
    ensures forall i :: 0 <= i < |r| - |s| ==> r[i] == '0'
  {
    if |s| < width then Zeros(width - |s|) + s else s
  }

  /// `fmt.Sprintf("%0<width>d", n)`: a minus sign for negative numbers, then
  /// the digits zero-padded so that sign and digits fill `width` bytes; a
  /// number already that wide is printed as it is.
  function PadInt(n: int, width: nat): (r: string)
    ensures |r| >= width && |r| >= 1
    ensures n >= 0 ==> AllDigits(r) && DigitsValue(r) == n
    ensures n >= 0 ==> |r| == if |Decimal(n)| < width then width else |Decimal(n)|
    ensures n >= 0 && width <= 1 ==> r == Decimal(n)
    ensures n < 0 ==> r[0] == '-' && AllDigits(r[1..]) && DigitsValue(r[1..]) == -n
    ensures n < 0 ==> |r| == if 1 + |Decimal(-n)| < width then width else 1 + |Decimal(-n)|
  {
    if n < 0 then PadNegative(-n, width) else PadNatural(n, width)
  }

  function PadNatural(n: nat, width: nat): (r: string)
    ensures AllDigits(r) && DigitsValue(r) == n
    ensures |r| == if |Decimal(n)| < width then width else |Decimal(n)|
    ensures width <= 1 ==> r == Decimal(n)
  {
    var digits := Decimal(n);
    var padded := ZeroPad(digits, width);
    PadAgrees(digits, padded);
    DecimalRoundTrip(n);
    padded
  }

  function PadNegative(m: nat, width: nat): (r: string)
    requires m > 0
    ensures |r| >= 2 && r[0] == '-' && AllDigits(r[1..]) && DigitsValue(r[1..]) == m
    ensures |r| == if 1 + |Decimal(m)| < width then width else 1 + |Decimal(m)|
  {
    var digits := Decimal(m);
    var padded := ZeroPad(digits, if width > 0 then width - 1 else 0);
    PadAgrees(digits, padded);
    DecimalRoundTrip(m);
    assert ("-" + padded)[1..] == padded;
    "-" + padded
  }

  lemma PadAgrees(digits: string, padded: string)
    requires AllDigits(digits)
    requires |padded| >= |digits| && padded[|padded| - |digits|..] == digits
    requires forall i :: 0 <= i < |padded| - |digits| ==> padded[i] == '0'
    ensures AllDigits(padded) && DigitsValue(padded) == DigitsValue(digits)
  {
    var k := |padded| - |digits|;
    assert padded == Zeros(k) + digits;
    LeadingZeros(k, digits);
  }

  /// A number below 100 padded to two places takes exactly two bytes.
  lemma TwoPlaces(n: nat)
    requires n < 100
    ensures |PadInt(n, 2)| == 2
  {
    if n >= 10 {
      assert Decimal(n) == Decimal(n / 10) + [DigitChar(n % 10)];
    }
  }

  /// `fmt.Sprintf("%d", n)`.
  function FormatInt(n: int): string
  {
    PadInt(n, 0)
  }

  /// Go's integer division: the quotient is truncated toward zero.
  function Quot(a: int, b: int): (q: int)
    requires b > 0
    ensures a >= 0 ==> q == a / b
  {
    if a >= 0 then a / b else -((-a) / b)
  }

  /// Go's `%`: the remainder of truncating division, which takes the sign of
  /// the dividend.
  function Rem(a: int, b: int): (r: int)
    requires b > 0
    ensures a == Quot(a, b) * b + r
    ensures a >= 0 ==> 0 <= r < b && r == a % b
    ensures a < 0 ==> -b < r <= 0
  {
    a - Quot(a, b) * b
  }

  lemma MulLe(a: int, b: int, d: int)
    requires a <= b && d > 0
    ensures a * d <= b * d
  {
  }

  /// Euclidean division has one quotient and one remainder.
  lemma DivModUnique(x: int, d: int, q: int, r: int)
    requires d > 0 && 0 <= r < d && x == q * d + r
    ensures x / d == q && x % d == r
  {
    var q', r' := x / d, x % d;
    assert x == q' * d + r';
    if q' < q {
      MulLe(q' + 1, q, d);
    } else if q' > q {
      MulLe(q + 1, q', d);
    }
  }

  lemma ModAddPeriod(t: int, d: int)
    requires d > 0
    ensures (t + d) % d == t % d
  {
    DivModUnique(t + d, d, t / d + 1, t % d);
  }

  lemma ModAddMultiple(t: int, m: int, d: int)
    requires d > 0
    ensures (t + m * d) % d == t % d
  {
    DivModUnique(t + m * d, d, t / d + m, t % d);
  }

  /// The text a renderer starts with stays at the front of what it appends to.
  lemma PrefixOfConcat(h: string, a: string, b: string)
    ensures h <= h + a + b && |h + a + b| >= |h|
  {
  }

  /// A string doubled and doubled again, as the scrolling buffers are built
  /// (`repeated = repeated + repeated`, twice).
  function Fourfold(u: string): (r: string)
    ensures |r| == 4 * |u|
  {
    var twice := u + u;
    twice + twice
  }

  /// Byte `i` of the fourfold buffer is byte `i mod |u|` of the unit.
  lemma FourfoldAt(u: string, i: nat)
    requires 0 < |u| && i < 4 * |u|
    ensures Fourfold(u)[i] == u[i % |u|]
  {
    var n := |u|;
    var q := i / n;
    DivModUnique(i, n, q, i % n);
    assert q < 4 by {
      if q >= 4 {
        MulLe(4, q, n);
      }
    }
    assert Fourfold(u)[i] == u[i - q * n];
  }

  /// A window of the fourfold buffer reads the unit cyclically.
  lemma FourfoldWindow(u: string, step: nat, l: nat)
    requires 0 < |u| && step + l <= 4 * |u|
    ensures forall i :: step <= i < step + l ==> Fourfold(u)[i] == u[i % |u|]
  {
    forall i | step <= i < step + l
      ensures Fourfold(u)[i] == u[i % |u|]
    {
      FourfoldAt(u, i);
    }
  }

  /// `strings.Join(elems, sep)`.
  function Join(elems: seq<string>, sep: string): (r: string)
    ensures sep != [] ==> (r == [] <==> elems == [] || (|elems| == 1 && elems[0] == []))
    ensures elems != [] ==> elems[0] <= r
  {
    if elems == [] then ""
    else if |elems| == 1 then elems[0]
    else elems[0] + sep + Join(elems[1..], sep)
  }
}
