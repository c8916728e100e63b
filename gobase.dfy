/**
 * The parts of Go's built-in semantics the memplot package relies on: fixed-width
 * integers, the truncating integer division `/` on `time.Duration` (an `int64` of
 * nanoseconds), `Duration.Seconds()` and the `%d` verb of `fmt.Sprintf`.
 */
module GoBase {

  const MinInt64: int := -0x8000_0000_0000_0000
  const MaxInt64: int := 0x7fff_ffff_ffff_ffff
  const MinInt32: int := -0x8000_0000
  const MaxInt32: int := 0x7fff_ffff
  const MaxUint64: int := 0xffff_ffff_ffff_ffff

  type Int64 = x: int | MinInt64 <= x <= MaxInt64
  type Int32 = x: int | MinInt32 <= x <= MaxInt32
  type Uint64 = x: int | 0 <= x <= MaxUint64

  /** `time.Duration`: a signed count of nanoseconds. */
  type Duration = Int64

  /** A wall-clock reading (`time.Time`), as nanoseconds since an arbitrary epoch. */
  type Time = int

  const Second: Duration := 1_000_000_000

  function Abs(x: int): (a: nat)
    ensures a == x || a == -x
  {
    if x < 0 then -x else x
  }

  /**
   * Go's `x / y` on int64: the quotient is truncated toward zero, and the one
   * quotient that does not fit, MinInt64 / -1, wraps around to MinInt64.
   * Dividing by zero panics, so `y != 0` is demanded of the caller.
   */
  function Quo(x: Int64, y: Int64): Int64
    requires y != 0
  {
    if x == MinInt64 && y == -1 then MinInt64
    else
      var a := Abs(x) / Abs(y);
      QuotientBounds(Abs(x), Abs(y));
      if (x < 0) == (y < 0) then a else -a
  }

  /**
   * Quo is Go's division: apart from the wrap-around, the remainder it leaves
   * is smaller than the divisor and is zero or has the dividend's sign.
   */
  lemma QuoTruncates(x: Int64, y: Int64)
    requires y != 0
    ensures var q := Quo(x, y);
            (x == MinInt64 && y == -1 ==> q == MinInt64) &&
            (!(x == MinInt64 && y == -1) ==>
               Abs(x - q * y) < Abs(y) && (x - q * y == 0 || (x - q * y < 0 <==> x < 0)))
  {
    if !(x == MinInt64 && y == -1) {
      var q := Quo(x, y);
      var a := Abs(x) / Abs(y);
      assert q == if (x < 0) == (y < 0) then a else -a;
      TruncatedRemainder(x, y, a, q);
    }
  }

  lemma TruncatedRemainder(x: int, y: int, a: int, q: int)
    requires y != 0 && a == Abs(x) / Abs(y)
    requires q == if (x < 0) == (y < 0) then a else -a
    ensures Abs(x - q * y) < Abs(y)
    ensures x - q * y == 0 || (x - q * y < 0 <==> x < 0)
  {
    var n, d := Abs(x), Abs(y);
    QuotientBounds(n, d);
    var r := x - q * y;
    if x >= 0 {
      assert r == n - a * d by { ProductOfSigns(a, d, q, y); }
      assert r == n % d;
    } else {
      assert r == a * d - n by { ProductOfSigns(a, d, q, y); }
      assert r == -(n % d);
    }
  }

  lemma ProductOfSigns(a: int, d: int, q: int, y: int)
    requires (q == a || q == -a) && (y == d || y == -d)
    ensures q * y == (if (q == a) == (y == d) then a * d else -(a * d))
  {
    assert (-a) * d == -(a * d) && a * (-d) == -(a * d) && (-a) * (-d) == a * d;
  }

  /**
   * A quotient of naturals is at most the dividend, and at most half of it for
   * a divisor of two or more.
   */
  lemma QuotientBounds(n: nat, d: nat)
    requires d > 0
    ensures 0 <= n / d <= n
    ensures d >= 2 ==> 2 * (n / d) <= n
  {
    var q, m := n / d, n % d;
    assert n == q * d + m && 0 <= m < d;
    if q < 0 {
      MulNonNegative(-q - 1, d);
      assert false;
    }
    MulNonNegative(q, d - 1);
    if d >= 2 {
      MulNonNegative(q, d - 2);
    }
  }

  /**
   * Kept as a lemma of its own: called, it adds one product fact without
   * opening nonlinear arithmetic in the caller's proof.
   */
  lemma MulNonNegative(a: int, b: int)
    requires a >= 0 && b >= 0
    ensures a * b >= 0
  {
  }

  /** `Duration.Seconds()`, as an exact real rather than a float64. */
  function Seconds(d: Duration): (s: real)
    ensures s * (Second as real) == d as real
  {
    d as real / Second as real
  }

  // ---------------------------------------------------------------------------
  // Decimal formatting (`%d`) and its inverse

  function DigitChar(d: nat): (c: char)
    requires d < 10
    ensures '0' <= c <= '9' && (c as int) - ('0' as int) == d
  {
    (('0' as int) + d) as char
  }

  predicate IsDigit(c: char) {
    '0' <= c <= '9'
  }

  /** The decimal digits of `n`, most significant first, with no leading zero. */
  function Digits(n: nat): (s: string)
    ensures |s| >= 1
    ensures forall i :: 0 <= i < |s| ==> IsDigit(s[i])
    ensures s[0] == '0' ==> n == 0
  {
    if n < 10 then [DigitChar(n)] else Digits(n / 10) + [DigitChar(n % 10)]
  }

  /** What `fmt.Sprintf("%d", n)` prints for an integer `n`. */
  function FormatInt(n: int): (s: string)
    ensures |s| >= 1
    ensures s[0] == '-' <==> n < 0
    ensures forall i :: (if n < 0 then 1 else 0) <= i < |s| ==> IsDigit(s[i])
  {
    if n < 0 then "-" + Digits(-n) else Digits(n)
  }

  /** Reads a string of decimal digits back as a number. */
  function ParseDigits(s: string): nat
    requires forall i :: 0 <= i < |s| ==> IsDigit(s[i])
  {
    if s == [] then 0
    else
      assert IsDigit(s[|s| - 1]);
      ParseDigits(s[..|s| - 1]) * 10 + ((s[|s| - 1] as int) - ('0' as int))
  }

  /** Reads an optionally negative decimal numeral back as an integer. */
  function ParseInt(s: string): int
    requires |s| >= 1
    requires forall i :: (if s[0] == '-' then 1 else 0) <= i < |s| ==> IsDigit(s[i])
  {
    if s[0] == '-' then -(ParseDigits(s[1..]) as int) else ParseDigits(s)
  }

  lemma {:induction false} DigitsRoundTrip(n: nat)
    ensures ParseDigits(Digits(n)) == n
  {
    if n >= 10 {
      DigitsRoundTrip(n / 10);
      var s := Digits(n);
      assert s[..|s| - 1] == Digits(n / 10);
    }
  }

  /** `%d` loses nothing: the printed numeral reads back as the same integer. */
  lemma FormatIntRoundTrip(n: int)
    ensures ParseInt(FormatInt(n)) == n
  {
    if n < 0 {
      DigitsRoundTrip(-n);
      assert FormatInt(n)[1..] == Digits(-n);
    } else {
      DigitsRoundTrip(n);
    }
  }

  /** Distinct integers print as distinct numerals. */
  lemma FormatIntInjective(m: int, n: int)
    requires FormatInt(m) == FormatInt(n)
    ensures m == n
  {
    FormatIntRoundTrip(m);
    FormatIntRoundTrip(n);
  }
}
