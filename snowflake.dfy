/**
 * Discord snowflake identifiers: a message id is a decimal `int64` whose bits above
 * the lowest 22 count milliseconds since the Discord epoch (2015-01-01T00:00:00Z).
 */
module Snowflake {
  import opened Wrappers
  import opened GoTime
  import opened Decimal

  /** 2015-01-01T00:00:00Z in Unix milliseconds. */
  const DiscordEpoch: int := 1420070400000
  /** Number of low-order bits that hold worker, process and sequence numbers. */
  const TimestampShift: nat := 22
  const TwoTo22: nat := 4194304

  function Pow2(k: nat): (p: nat)
    ensures p >= 1
  {
    if k == 0 then 1 else 2 * Pow2(k - 1)
  }

  /**
   * Go's `x >> k` on a signed integer: `k` arithmetic halvings, each rounding toward
   * negative infinity (Dafny's `/` by a positive divisor rounds down).
   */
  function ShiftRight(x: int, k: nat): int
    decreases k
  {
    if k == 0 then x else ShiftRight(x, k - 1) / 2
  }

  /** The Unix-millisecond timestamp encoded in a snowflake id: `(id >> 22) + DiscordEpoch`. */
  function SnowflakeMillis(id: int): int {
    ShiftRight(id, TimestampShift) + DiscordEpoch
  }

  /** Euclidean division is determined by any quotient/remainder pair with a remainder in range. */
  lemma DivUnique(x: int, d: int, q: int, r: int)
    requires d > 0 && 0 <= r < d && x == q * d + r
    ensures x / d == q
  {
    var q', r' := x / d, x % d;
    var t := q - q';
    assert d * t == r' - r by {
      assert q * d + r == d * q' + r';
      assert d * t == q * d - d * q';
    }
  }

  lemma DivDiv(x: int, a: int, b: int)
    requires a > 0 && b > 0
    ensures (x / a) / b == x / (a * b)
  {
    var q1, r1 := x / a, x % a;
    var q2, r2 := q1 / b, q1 % b;
    DivDivArithmetic(x, a, b, q1, r1, q2, r2);
    DivUnique(x, a * b, q2, a * r2 + r1);
  }

  /** The quotient and remainder of two successive divisions, recombined. */
  lemma DivDivArithmetic(x: int, a: int, b: int, q1: int, r1: int, q2: int, r2: int)
    requires a > 0 && b > 0
    requires x == a * q1 + r1 && 0 <= r1 < a
    requires q1 == b * q2 + r2 && 0 <= r2 < b
    ensures x == q2 * (a * b) + (a * r2 + r1)
    ensures 0 <= a * r2 + r1 < a * b
  {
    MulDistributes(a, b * q2, r2);
    MulAssociates(a, b, q2);
    MulBelow(a, r2, b);
  }

  lemma MulDistributes(a: int, u: int, v: int)
    ensures a * (u + v) == a * u + a * v
  {
  }

  lemma MulAssociates(a: int, b: int, c: int)
    ensures a * (b * c) == c * (a * b)
  {
  }

  /** `a * r <= a * b - a` for a remainder `r` below `b`. */
  lemma MulBelow(a: int, r: int, b: int)
    requires a > 0 && 0 <= r < b
    ensures 0 <= a * r <= a * b - a
  {
    MulNonNegative(a, r);
    MulNonNegative(a, b - 1 - r);
    MulDistributes(a, b - 1 - r, r + 1);
    MulDistributes(a, r, 1);
  }

  lemma MulNonNegative(a: int, c: int)
    requires a >= 0 && c >= 0
    ensures a * c >= 0
  {
  }

  /** Shifting right by `k` bits is floor division by 2^k, for negative ids as well. */
  lemma {:induction false} ShiftRightIsFloorDiv(x: int, k: nat)
    ensures ShiftRight(x, k) == x / Pow2(k)
    decreases k
  {
    if k > 0 {
      ShiftRightIsFloorDiv(x, k - 1);
      DivDiv(x, Pow2(k - 1), 2);
    }
  }

  lemma Pow2Of22()
    ensures Pow2(TimestampShift) == TwoTo22
  {
    assert Pow2(6) == 64;
    assert Pow2(12) == 4096;
    assert Pow2(18) == 262144;
  }

  /** The timestamp is the id divided by 2^22, rounded down, plus the Discord epoch. */
  lemma SnowflakeMillisIsDiv(id: int)
    ensures SnowflakeMillis(id) == id / TwoTo22 + DiscordEpoch
  {
    ShiftRightIsFloorDiv(id, TimestampShift);
    Pow2Of22();
  }

  /**
   * `parseSnowflakeToTime`: a snowflake string that is not a valid base-10 `int64`
   * yields the parse error and the zero time; a valid one yields
   * floor(id / 2^22) + DiscordEpoch Unix milliseconds.
   */
  function ParseSnowflakeToTime(snowflake: string): (r: (Time, Option<NumError>))
    ensures r.1.None? <==> WellFormed(snowflake) && InInt64(SignedValue(snowflake))
    ensures r.1.Some? ==> r.0 == ZeroTime
    ensures r.1.None? ==> r.0 == UnixMilli(SignedValue(snowflake) / TwoTo22 + DiscordEpoch)
  {
    ParseIntCorrect(snowflake);
    match ParseInt(snowflake)
    case Failure(e) => (ZeroTime, Some(e))
    case Success(id) =>
      SnowflakeMillisIsDiv(id);
      (UnixMilli(SnowflakeMillis(id)), None)
  }

  /** Id 0 is the Discord epoch itself. */
  lemma ZeroIdIsDiscordEpoch()
    ensures ParseSnowflakeToTime("0") == (UnixMilli(1420070400000), None)
  {
    assert WellFormed("0") && SignedValue("0") == 0;
  }

  lemma {:induction false} ShiftRightMonotonic(a: int, b: int, k: nat)
    requires a <= b
    ensures ShiftRight(a, k) <= ShiftRight(b, k)
    decreases k
  {
    if k > 0 {
      ShiftRightMonotonic(a, b, k - 1);
    }
  }

  /** A later (larger) id never decodes to an earlier timestamp. */
  lemma SnowflakeMonotonic(a: int, b: int)
    requires a <= b
    ensures SnowflakeMillis(a) <= SnowflakeMillis(b)
  {
    ShiftRightMonotonic(a, b, TimestampShift);
  }

  /** The same monotonicity, stated on the id strings the parser accepts. */
  lemma ParsedSnowflakeMonotonic(s1: string, s2: string)
    requires ParseSnowflakeToTime(s1).1.None? && ParseSnowflakeToTime(s2).1.None?
    requires SignedValue(s1) <= SignedValue(s2)
    ensures ParseSnowflakeToTime(s1).0.ms <= ParseSnowflakeToTime(s2).0.ms
  {
    SnowflakeMillisIsDiv(SignedValue(s1));
    SnowflakeMillisIsDiv(SignedValue(s2));
    SnowflakeMonotonic(SignedValue(s1), SignedValue(s2));
  }

  /**
   * Two ids decode to the same timestamp exactly when they agree above their low
   * 22 bits, i.e. when they have the same quotient by 2^22.
   */
  lemma SameTimeIffSameHighBits(a: int, b: int)
    ensures SnowflakeMillis(a) == SnowflakeMillis(b) <==> a / TwoTo22 == b / TwoTo22
  {
    SnowflakeMillisIsDiv(a);
    SnowflakeMillisIsDiv(b);
  }

  /** Whatever the low 22 bits of an id hold, the timestamp is that of its high part. */
  lemma LowBitsIgnored(id: int, high: int, low: int)
    requires 0 <= low < TwoTo22 && id == high * TwoTo22 + low
    ensures SnowflakeMillis(id) == high + DiscordEpoch
  {
    DivUnique(id, TwoTo22, high, low);
    SnowflakeMillisIsDiv(id);
  }

  /**
   * For every `int64` id the addition `(id >> 22) + DiscordEpoch` stays within
   * `int64`, so Go's wrap-around never takes effect.
   */
  lemma NoOverflow(id: int)
    requires InInt64(id)
    ensures -0x200_0000_0000 + DiscordEpoch <= SnowflakeMillis(id) <= 0x1FF_FFFF_FFFF + DiscordEpoch
    ensures InInt64(SnowflakeMillis(id))
  {
    ShiftRightMonotonic(MinInt64, id, TimestampShift);
    ShiftRightMonotonic(id, MaxInt64, TimestampShift);
    ShiftRightIsFloorDiv(MinInt64, TimestampShift);
    ShiftRightIsFloorDiv(MaxInt64, TimestampShift);
    Pow2Of22();
  }
}
