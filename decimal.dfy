/**
 * Base-10 integer text as Go's `strconv.ParseInt(s, 10, 64)` reads it and as
 * `fmt`'s `%d` verb writes it.
 */
module Decimal {
  import opened Wrappers

  const MinInt64: int := -0x8000_0000_0000_0000
  const MaxInt64: int := 0x7FFF_FFFF_FFFF_FFFF
  const MaxUint64: int := 0xFFFF_FFFF_FFFF_FFFF

  /** `x` is representable as a Go `int64`. */
  predicate InInt64(x: int) {
    MinInt64 <= x <= MaxInt64
  }

  predicate IsDigit(c: char) {
    '0' <= c <= '9'
  }

  predicate AllDigits(s: string) {
    forall i :: 0 <= i < |s| ==> IsDigit(s[i])
  }

  function DigitValue(c: char): (d: nat)
    requires IsDigit(c)
    ensures d < 10
  {
    (c as int) - ('0' as int)
  }

  function DigitChar(d: nat): (c: char)
    requires d < 10
    ensures IsDigit(c) && DigitValue(c) == d
  {
    (('0' as int) + d) as char
  }

  /** The number a digit string denotes, most significant digit first. */
  function Value(s: string): nat
    requires AllDigits(s)
    decreases |s|
  {
    if s == [] then 0 else Value(s[..|s| - 1]) * 10 + DigitValue(s[|s| - 1])
  }

  /** The `Err` field of the `*strconv.NumError` that a failed parse returns. */
  datatype NumError = ErrSyntax | ErrRange

  /**
   * The digit loop of `strconv.ParseUint`: characters are consumed left to right;
   * the first non-digit is a syntax error and the first step whose accumulated
   * value leaves the `uint64` range is a range error.
   */
  function ScanUint(s: string, acc: nat): Result<nat, NumError>
    decreases |s|
  {
    if s == [] then Success(acc)
    else if !IsDigit(s[0]) then Failure(ErrSyntax)
    else
      var n := acc * 10 + DigitValue(s[0]);
      if n > MaxUint64 then Failure(ErrRange) else ScanUint(s[1..], n)
  }

  /** `strconv.ParseUint(s, 10, 64)`. */
  function ParseUint(s: string): Result<nat, NumError> {
    if s == [] then Failure(ErrSyntax) else ScanUint(s, 0)
  }

  /** The text after an optional leading `+` or `-`. */
  function Unsigned(s: string): string {
    if s != [] && (s[0] == '+' || s[0] == '-') then s[1..] else s
  }

  predicate Negative(s: string) {
    s != [] && s[0] == '-'
  }

  /**
   * `strconv.ParseInt(s, 10, 64)`: an optional sign, then the unsigned parse, then
   * the `int64` range check. The unsigned parse's range error and the signed range
   * check both report `ErrRange`.
   */
  function ParseInt(s: string): (r: Result<int, NumError>)
    ensures r.Success? ==> InInt64(r.value)
  {
    if s == [] then Failure(ErrSyntax)
    else
      match ParseUint(Unsigned(s))
      case Failure(e) => Failure(e)
      case Success(un) =>
        if !Negative(s) && un > MaxInt64 then Failure(ErrRange)
        else if Negative(s) && un > MaxInt64 + 1 then Failure(ErrRange)
        else Success(if Negative(s) then -(un as int) else un)
  }

  /** A decimal literal: an optional sign followed by at least one digit. */
  predicate WellFormed(s: string) {
    Unsigned(s) != [] && AllDigits(Unsigned(s))
  }

  /** The integer a well-formed literal denotes, whatever its size. */
  function SignedValue(s: string): int
    requires WellFormed(s)
  {
    if Negative(s) then -(Value(Unsigned(s)) as int) else Value(Unsigned(s))
  }

  /**
   * The value the digit loop reaches from accumulator `acc`: each digit, most
   * significant first, multiplies the accumulator by ten and adds itself.
   */
  function Fold(s: string, acc: nat): (r: nat)
    requires AllDigits(s)
    ensures r >= acc
    decreases |s|
  {
    if s == [] then acc else Fold(s[1..], acc * 10 + DigitValue(s[0]))
  }

  /** Appending a digit multiplies the folded value by ten and adds the digit. */
  lemma {:induction false} FoldSnoc(s: string, c: char, acc: nat)
    requires AllDigits(s) && IsDigit(c)
    ensures AllDigits(s + [c]) && Fold(s + [c], acc) == Fold(s, acc) * 10 + DigitValue(c)
    decreases |s|
  {
    if s != [] {
      assert (s + [c])[1..] == s[1..] + [c];
      FoldSnoc(s[1..], c, acc * 10 + DigitValue(s[0]));
    }
  }

  /** Folding from zero gives the value of the digit string. */
  lemma {:induction false} FoldIsValue(s: string)
    requires AllDigits(s)
    ensures Fold(s, 0) == Value(s)
    decreases |s|
  {
    if s != [] {
      var init := s[..|s| - 1];
      FoldIsValue(init);
      FoldSnoc(init, s[|s| - 1], 0);
      assert init + [s[|s| - 1]] == s;
    }
  }

  lemma AllDigitsTail(s: string)
    requires s != [] && IsDigit(s[0])
    ensures AllDigits(s) <==> AllDigits(s[1..])
  {
    if AllDigits(s[1..]) {
      forall i | 0 <= i < |s| ensures IsDigit(s[i]) {
        if i > 0 { assert s[i] == s[1..][i - 1]; }
      }
    }
  }

  /** The digit loop succeeds exactly on digit strings whose folded value fits in 64 bits. */
  lemma {:induction false} ScanUintCorrect(s: string, acc: nat)
    requires acc <= MaxUint64
    ensures ScanUint(s, acc).Success? <==> AllDigits(s) && Fold(s, acc) <= MaxUint64
    ensures ScanUint(s, acc).Success? ==> ScanUint(s, acc).value == Fold(s, acc)
    ensures AllDigits(s) && ScanUint(s, acc).Failure? ==> ScanUint(s, acc).error == ErrRange
    decreases |s|
  {
    if s != [] && IsDigit(s[0]) {
      AllDigitsTail(s);
      var n := acc * 10 + DigitValue(s[0]);
      if n <= MaxUint64 {
        ScanUintCorrect(s[1..], n);
      }
    }
  }

  /** ParseInt accepts exactly the well-formed literals whose value is an `int64`, and returns that value. */
  lemma ParseIntCorrect(s: string)
    ensures ParseInt(s).Success? <==> WellFormed(s) && InInt64(SignedValue(s))
    ensures ParseInt(s).Success? ==> ParseInt(s).value == SignedValue(s)
    ensures WellFormed(s) && ParseInt(s).Failure? ==> ParseInt(s).error == ErrRange
  {
    var u := Unsigned(s);
    if s != [] && u != [] {
      ScanUintCorrect(u, 0);
      if AllDigits(u) {
        FoldIsValue(u);
      }
    }
  }

  /** `%d` of a non-negative number: its digits, most significant first, without leading zeros. */
  function FormatNat(n: nat): (s: string)
    ensures s != [] && AllDigits(s)
    decreases n
  {
    if n < 10 then [DigitChar(n)] else FormatNat(n / 10) + [DigitChar(n % 10)]
  }

  /** `%d` (equivalently `strconv.FormatInt(n, 10)`). */
  function FormatInt(n: int): string {
    if n < 0 then "-" + FormatNat(-n) else FormatNat(n)
  }

  lemma {:induction false} ValueOfFormatNat(n: nat)
    ensures Value(FormatNat(n)) == n
    decreases n
  {
    if n >= 10 {
      ValueOfFormatNat(n / 10);
      var s := FormatNat(n);
      assert s[..|s| - 1] == FormatNat(n / 10);
    }
  }

  /** Different numbers are written differently. */
  lemma FormatNatInjective(m: nat, n: nat)
    requires FormatNat(m) == FormatNat(n)
    ensures m == n
  {
    ValueOfFormatNat(m);
    ValueOfFormatNat(n);
  }

  /** Reading back what `%d` wrote gives the number again, for every `int64`. */
  lemma ParseFormatRoundTrip(n: int)
    requires InInt64(n)
    ensures ParseInt(FormatInt(n)) == Success(n)
  {
    var s := FormatInt(n);
    if n < 0 {
      assert Unsigned(s) == FormatNat(-n);
      ValueOfFormatNat(-n);
    } else {
      assert Unsigned(s) == FormatNat(n);
      ValueOfFormatNat(n);
    }
    ParseIntCorrect(s);
  }
}
