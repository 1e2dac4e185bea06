/** Python's numeric conversions that the widgets rely on, written out over
    Dafny's unbounded `int` and exact `real`. */
module PyNum {

  /** `int(r)`: truncation toward zero. */
  function Trunc(r: real): (n: int)
    ensures 0.0 <= r ==> 0 <= n && n as real <= r < n as real + 1.0
    ensures r < 0.0 ==> n <= 0 && n as real - 1.0 < r <= n as real
  {
    if r >= 0.0 then r.Floor else -((-r).Floor)
  }

  /** `round(r)`: nearest integer, ties to the even neighbour (banker's rounding). */
  function RoundHalfEven(r: real): (n: int)
    ensures n as real - 0.5 <= r <= n as real + 0.5
    ensures (r == n as real - 0.5 || r == n as real + 0.5) ==> n % 2 == 0
  {
    var f := r.Floor;
    var d := r - f as real;
    if d < 0.5 then f
    else if d > 0.5 then f + 1
    else if f % 2 == 0 then f
    else f + 1
  }

  /** Rounding never reverses the order of two reals. */
  lemma RoundHalfEvenMonotone(a: real, b: real)
    requires a <= b
    ensures RoundHalfEven(a) <= RoundHalfEven(b)
  {
  }

  /** Rounding an integral real gives that integer back. */
  lemma RoundHalfEvenOfInt(k: int)
    ensures RoundHalfEven(k as real) == k
  {
  }

  /** Python's `a // b`: the floor of the quotient, for either sign of `b`. */
  function FloorDiv(a: int, b: int): (q: int)
    requires b != 0
    ensures b > 0 ==> q * b <= a < q * b + b
    ensures b < 0 ==> q * b >= a > q * b + b
  {
    if b > 0 then a / b else (-a) / (-b)
  }

  /** The decimal digits of a natural number, most significant first, as `str(n)` writes them. */
  function NatToString(n: nat): (s: string)
    ensures |s| >= 1
    ensures forall i | 0 <= i < |s| :: '0' <= s[i] <= '9'
    ensures n >= 10 ==> s[0] != '0'
    ensures Canonical(s)
    decreases n
  {
    if n < 10 then [Digit(n)] else NatToString(n / 10) + [Digit(n % 10)]
  }

  function Digit(d: nat): (c: char)
    requires d < 10
    ensures '0' <= c <= '9' && (c as int) - ('0' as int) == d
  {
    ['0', '1', '2', '3', '4', '5', '6', '7', '8', '9'][d]
  }

  /** A digit string as `str` and `format` write it: at least one digit, and a
      leading `0` only in `"0"` itself. */
  predicate Canonical(s: string)
  {
    && |s| >= 1
    && (forall i | 0 <= i < |s| :: '0' <= s[i] <= '9')
    && (s[0] == '0' ==> |s| == 1)
  }

  /** `str(i)` for any integer. */
  function IntToString(i: int): string
  {
    if i < 0 then "-" + NatToString(-i) else NatToString(i)
  }

  /** Python's `f"{r:.0f}"`: round half to even, keeping the sign of a negative
      value even when it rounds to zero (`-0.3` formats as `-0`). */
  function FormatFixed0(r: real): (s: string)
    ensures 0.0 <= r ==> Canonical(s) && DecimalValue(s) == RoundHalfEven(r)
    ensures r < 0.0 ==> (
      && |s| >= 2 && s[0] == '-'
      && var d := s[1..]; Canonical(d) && DecimalValue(d) == RoundHalfEven(-r))
  {
    if r < 0.0 then
      DecimalRoundTrip(RoundHalfEven(-r));
      var d := NatToString(RoundHalfEven(-r));
      assert ("-" + d)[1..] == d;
      "-" + d
    else
      DecimalRoundTrip(RoundHalfEven(r));
      NatToString(RoundHalfEven(r))
  }

  /** The value of a string of decimal digits: the inverse of `NatToString`. */
  function DecimalValue(s: string): nat
    requires forall i | 0 <= i < |s| :: '0' <= s[i] <= '9'
  {
    if s == [] then 0
    else 10 * DecimalValue(s[..|s| - 1]) + ((s[|s| - 1] as int) - ('0' as int))
  }

  /** Reading back the digits `str` writes gives the number. */
  lemma {:induction false} DecimalRoundTrip(n: nat)
    ensures DecimalValue(NatToString(n)) == n
    decreases n
  {
    var s := NatToString(n);
    if n >= 10 {
      DecimalRoundTrip(n / 10);
      assert s[..|s| - 1] == NatToString(n / 10);
    }
  }

  /** A non-zero multiple of a positive `s` is at least `s` away from zero. */
  lemma MulBounds(d: int, s: int)
    requires s > 0
    ensures d >= 1 ==> d * s >= s
    ensures d <= -1 ==> d * s <= -s
  {
  }

  /** Euclidean division of `q * s + r` by `s` gives back `q` and `r`. */
  lemma DivModUnique(q: int, r: int, s: int)
    requires s > 0 && 0 <= r < s
    ensures (q * s + r) / s == q && (q * s + r) % s == r
  {
    var v := q * s + r;
    var d := v / s - q;
    assert v == s * (v / s) + v % s;
    assert s * (v / s) == s * d + s * q;
    assert r - v % s == d * s;
    MulBounds(d, s);
  }

  /** Multiplying by a non-negative factor keeps the order of non-negative reals. */
  lemma RealMulMono(a: real, b: real, c: real)
    requires 0.0 <= a <= b && 0.0 <= c
    ensures 0.0 <= a * c <= b * c
  {
  }

  /** The product of two non-negative reals is non-negative. */
  lemma ProductNonNegative(a: real, b: real)
    ensures 0.0 <= a && 0.0 <= b ==> 0.0 <= a * b
  {
    if 0.0 <= a && 0.0 <= b {
      RealMulMono(0.0, b, a);
    }
  }

  /** Scaling a non-negative real by a factor in `[0, 1]` keeps it between 0 and itself. */
  lemma RealScaleBelow(r: real, h: real)
    requires 0.0 <= r && 0.0 <= h <= 1.0
    ensures 0.0 <= r * h <= r
  {
    RealMulMono(h, 1.0, r);
  }

  /** Truncating a natural number scaled by a factor in `[0, 1]` stays between 0 and
      that number, and gives the number itself at factor 1. */
  lemma TruncScaleBelow(d: nat, h: real)
    requires 0.0 <= h <= 1.0
    ensures 0 <= Trunc(d as real * h) <= d
    ensures h == 0.0 ==> Trunc(d as real * h) == 0
    ensures h == 1.0 ==> Trunc(d as real * h) == d
  {
    var r := d as real;
    RealScaleBelow(r, h);
    var p := r * h;
    assert 0.0 <= p;
    assert p <= r;
    var t := Trunc(p);
    assert t as real <= p;
    assert (t as real) <= r;
  }
}
