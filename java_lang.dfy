/**
 * The few pieces of Java's standard library the client's arithmetic and naming depend on:
 * 64-bit `long` and 32-bit `int` ranges, wrapping `long` addition, `TimeUnit` conversions
 * and the decimal rendering `Long.toString` uses when a long is appended to a string.
 */
module JavaLang {

  const MinLong: int := -0x8000_0000_0000_0000
  const MaxLong: int := 0x7FFF_FFFF_FFFF_FFFF
  const MinInt: int := -0x8000_0000
  const MaxInt: int := 0x7FFF_FFFF

  /** A Java `long` value */
  type Long = x: int | MinLong <= x <= MaxLong
  /** A Java `int` value */
  type Int32 = x: int | MinInt <= x <= MaxInt

  /** Two's-complement reduction of an unbounded integer into the `long` range */
  function WrapLong(x: int): (r: Long)
    ensures (r - x) % 0x1_0000_0000_0000_0000 == 0
    ensures MinLong <= x <= MaxLong ==> r == x
  {
    var m := (x - MinLong) % 0x1_0000_0000_0000_0000;
    m + MinLong
  }

  /** Java's `a + b` on two longs, which wraps on overflow */
  function AddLong(a: Long, b: Long): Long {
    WrapLong(a + b)
  }

  /** Milliseconds in one minute and one day (`TimeUnit.MINUTES.toMillis(1)`, `TimeUnit.DAYS.toMillis(1)`) */
  const MinuteMillis: int := 60_000
  const DayMillis: int := 86_400_000

  /**
   * `TimeUnit.MINUTES.toMillis(d)`: multiplies by 60000 and saturates at the ends of the
   * `long` range instead of overflowing.
   */
  function MinutesToMillis(d: Long): (r: Long)
    ensures d > 0 ==> r > 0
    ensures d < 0 ==> r < 0
  {
    var limit := MaxLong / MinuteMillis;
    if d > limit then MaxLong
    else if d < -limit then MinLong
    else d * MinuteMillis
  }

  /** For the `int` minute counts the client passes, the saturation never triggers. */
  lemma MinutesToMillisOfIntIsExact(d: Int32)
    ensures MinutesToMillis(d) == d * MinuteMillis
  {
  }

  function Digit(d: nat): (c: char)
    requires d < 10
    ensures '0' <= c <= '9'
  {
    ('0' as int + d) as char
  }

  /** Decimal digits of a natural number, most significant first, without leading zeros */
  function NatDigits(n: nat): (r: string)
    ensures |r| >= 1
    ensures forall i :: 0 <= i < |r| ==> '0' <= r[i] <= '9'
    ensures n >= 10 ==> |r| >= 2
    decreases n
  {
    if n < 10 then [Digit(n)] else NatDigits(n / 10) + [Digit(n % 10)]
  }

  /** `Long.toString(n)`, i.e. what `s + n` appends for a long `n` */
  function LongToString(n: Long): (r: string)
    ensures |r| >= 1
    ensures r[0] == '-' <==> n < 0
    ensures forall i :: 0 < i < |r| ==> '0' <= r[i] <= '9'
  {
    if n < 0 then "-" + NatDigits(-(n as int)) else NatDigits(n)
  }

  lemma {:induction false} NatDigitsInjective(a: nat, b: nat)
    requires NatDigits(a) == NatDigits(b)
    ensures a == b
    decreases a
  {
    if a < 10 && b < 10 {
      assert Digit(a) == NatDigits(a)[0] == NatDigits(b)[0] == Digit(b);
    } else if a >= 10 && b >= 10 {
      var da, db := NatDigits(a), NatDigits(b);
      assert da[..|da| - 1] == NatDigits(a / 10);
      assert db[..|db| - 1] == NatDigits(b / 10);
      assert Digit(a % 10) == da[|da| - 1] == db[|db| - 1] == Digit(b % 10);
      NatDigitsInjective(a / 10, b / 10);
    }
  }

  /** Distinct longs render to distinct strings. */
  lemma LongToStringInjective(a: Long, b: Long)
    requires a != b
    ensures LongToString(a) != LongToString(b)
  {
    var sa, sb := LongToString(a), LongToString(b);
    if a < 0 && b < 0 {
      var na: nat, nb: nat := -(a as int), -(b as int);
      assert sa[1..] == NatDigits(na) && sb[1..] == NatDigits(nb);
      if sa == sb {
        NatDigitsInjective(na, nb);
      }
    } else if a >= 0 && b >= 0 {
      if sa == sb {
        NatDigitsInjective(a, b);
      }
    } else {
      assert sa[0] != sb[0];
    }
  }
}
