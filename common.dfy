/** Shared vocabulary of the fleet-maintenance backend: identifiers, time in
    milliseconds, JavaScript's rounding, decimal rendering of numbers, and the
    shape of an HTTP response produced by a route handler. */
module Common {

  /** A stored document's primary key (a MongoDB ObjectId in the application). */
  type Id = nat

  /** A point in time, in milliseconds since the epoch (a JavaScript Date). */
  type Time = int

  /** One day in milliseconds: 1000 * 60 * 60 * 24. */
  const DAY: int := 86400000

  datatype Option<+T> = None | Some(value: T)

  /** What a route handler sends back: a success status with a body, or an
      error status with the `error` message of the JSON error body. */
  datatype Response<+T> = Ok(code: int, body: T) | Fail(code: int, error: string)

  /** A subset has no more elements than its superset. */
  lemma SubsetCard<T>(a: set<T>, b: set<T>)
    requires a <= b
    ensures |a| <= |b|
  {
    assert b == a + (b - a);
  }

  /** Disjoint subsets together have no more elements than their superset. */
  lemma DisjointCard<T>(a: set<T>, b: set<T>, u: set<T>)
    requires a <= u && b <= u && a * b == {}
    ensures |a| + |b| <= |u|
  {
    assert |a + b| == |a| + |b|;
    SubsetCard(a + b, u);
  }

  /** `Math.ceil(ms / DAY)` on an exact millisecond difference: the least
      number of whole days that covers `ms`. */
  function DaysCeil(ms: int): (d: int)
    ensures (d - 1) * DAY < ms <= d * DAY
  {
    -((-ms) / DAY)
  }

  /** `Math.round(x)`: the nearest integer, halves rounded up. */
  function Round(x: real): (n: int)
    ensures x - 0.5 < n as real <= x + 0.5
  {
    (x + 0.5).Floor
  }

  lemma RoundMonotone(x: real, y: real)
    requires x <= y
    ensures Round(x) <= Round(y)
  {
  }

  /** Rounding keeps a value inside integer bounds that contain it. */
  lemma RoundWithin(x: real, lo: int, hi: int)
    requires lo as real <= x <= hi as real
    ensures lo <= Round(x) <= hi
  {
  }

  function DigitChar(d: nat): (c: char)
    requires d < 10
    ensures '0' <= c <= '9'
  {
    "0123456789"[d]
  }

  /** `String(n)` for a non-negative integer: decimal digits, no leading zero. */
  function DecimalString(n: nat): (s: string)
    ensures 1 <= |s|
    ensures forall i :: 0 <= i < |s| ==> '0' <= s[i] <= '9'
    ensures (s[0] == '0') == (n == 0)
    ensures n < 10 <==> |s| == 1
    decreases n
  {
    if n < 10 then [DigitChar(n)] else DecimalString(n / 10) + [DigitChar(n % 10)]
  }

  /** Two numbers with the same decimal rendering are equal. */
  lemma {:induction false} DecimalStringInjective(a: nat, b: nat)
    requires DecimalString(a) == DecimalString(b)
    ensures a == b
    decreases a
  {
    if a >= 10 && b >= 10 {
      var sa, sb := DecimalString(a / 10), DecimalString(b / 10);
      assert sa + [DigitChar(a % 10)] == sb + [DigitChar(b % 10)];
      assert |sa| == |sb|;
      assert sa == (sa + [DigitChar(a % 10)])[..|sa|];
      assert sb == (sb + [DigitChar(b % 10)])[..|sb|];
      DecimalStringInjective(a / 10, b / 10);
      assert DigitChar(a % 10) == DigitChar(b % 10);
      assert "0123456789"[a % 10] == "0123456789"[b % 10];
    } else if a < 10 && b < 10 {
      assert "0123456789"[a] == "0123456789"[b];
    }
  }

  /** `String(i)` for any integer, with a leading '-' when negative. */
  function IntString(i: int): (s: string)
    ensures 1 <= |s|
    ensures s[0] == '-' <==> i < 0
  {
    if i < 0 then "-" + DecimalString(-i) else DecimalString(i)
  }

  /** Two integers with the same rendering are equal. */
  lemma IntStringInjective(a: int, b: int)
    requires IntString(a) == IntString(b)
    ensures a == b
  {
    var s := IntString(a);
    assert s[0] == IntString(b)[0];
    if a < 0 {
      assert s[1..] == DecimalString(-a) && s[1..] == DecimalString(-b);
      DecimalStringInjective(-a, -b);
    } else {
      DecimalStringInjective(a, b);
    }
  }

  lemma PrefixCancels(prefix: string, x: string, y: string)
    requires prefix + x == prefix + y
    ensures x == y
  {
    assert x == (prefix + x)[|prefix|..];
  }

  /** Bounds on `x * t` with `t` positive are bounds on `x`. */
  lemma CancelPositive(x: real, y: real, t: real)
    requires t > 0.0 && x * t <= y * t
    ensures x <= y
  {
    assert (y - x) * t >= 0.0;
  }

  function Repeat(c: char, n: nat): (s: string)
    ensures |s| == n && forall i :: 0 <= i < n ==> s[i] == c
  {
    if n == 0 then [] else [c] + Repeat(c, n - 1)
  }

  /** `s.padStart(width, c)`: `s` preceded by copies of `c` up to `width` characters. */
  function PadStart(s: string, width: nat, c: char): (r: string)
    ensures |r| == if |s| < width then width else |s|
    ensures r[|r| - |s|..] == s
    ensures forall i :: 0 <= i < |r| - |s| ==> r[i] == c
  {
    if |s| >= width then s else Repeat(c, width - |s|) + s
  }

  /** Zero-padding a decimal number to a width keeps different numbers different. */
  lemma PaddedDecimalInjective(a: nat, b: nat, width: nat)
    requires 1 <= a && 1 <= b
    requires PadStart(DecimalString(a), width, '0') == PadStart(DecimalString(b), width, '0')
    ensures a == b
  {
    PaddingCancels(DecimalString(a), DecimalString(b), width);
    DecimalStringInjective(a, b);
  }

  /** Two strings without a leading '0' that pad to the same string are equal. */
  lemma PaddingCancels(x: string, y: string, width: nat)
    requires |x| > 0 && |y| > 0 && x[0] != '0' && y[0] != '0'
    requires PadStart(x, width, '0') == PadStart(y, width, '0')
    ensures x == y
  {
    var r := PadStart(x, width, '0');
    if |x| != |y| {
      assert false;
    } else {
      assert x == r[|r| - |x|..] == y;
    }
  }
}
