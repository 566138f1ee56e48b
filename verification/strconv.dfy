/**
 * Go's `strconv.ParseUint(s, 10, 64)`, which the listener uses to read the
 * `auctionId` and `duration` fields of a message, together with the decimal
 * rendering of a uint64 that the chain uses when it encodes those fields.
 *
 * The parser scans left to right, as the Go library does: the first
 * non-digit is a syntax error, the first digit that makes the value exceed
 * 2^64 - 1 is a range error, and the empty string is a syntax error.
 */
module Strconv {
  import opened Wrappers
  import opened AuctionTypes

  /** `strconv.ErrSyntax` and `strconv.ErrRange`. */
  datatype ParseError = ErrSyntax | ErrRange

  predicate IsDigit(c: char) {
    '0' <= c <= '9'
  }

  function DigitValue(c: char): (d: nat)
    requires IsDigit(c)
    ensures d < 10
  {
    c as int - '0' as int
  }

  function DigitChar(d: nat): (c: char)
    requires d < 10
    ensures IsDigit(c) && DigitValue(c) == d
  {
    ('0' as int + d) as char
  }

  predicate AllDigits(s: string) {
    forall i | 0 <= i < |s| :: IsDigit(s[i])
  }

  /** The number a string of decimal digits denotes (leading zeros allowed). */
  function Value(s: string): nat
    requires AllDigits(s)
  {
    if s == [] then 0 else Value(s[..|s| - 1]) * 10 + DigitValue(s[|s| - 1])
  }

  /** Go's `maxUint64/base + 1`: the first value whose product with 10 overflows. */
  const Cutoff: int := MAX_U64 / 10 + 1

  function ParseUint(s: string): Result<U64, ParseError> {
    if s == "" then Failure(ErrSyntax) else Scan(s, 0, 0)
  }

  /**
   * The library's digit loop, with `n` the value of `s[..i]`. The product
   * `n * 10` cannot wrap once `n < Cutoff`; the sum `n * 10 + d` is computed
   * modulo 2^64 and a wrap is detected by the result being smaller. (The
   * library's further test `n1 > maxVal` never holds for a 64-bit size.)
   */
  function Scan(s: string, i: nat, n: U64): Result<U64, ParseError>
    requires i <= |s|
    decreases |s| - i
  {
    if i == |s| then Success(n)
    else if !IsDigit(s[i]) then Failure(ErrSyntax)
    else if n >= Cutoff then Failure(ErrRange)
    else
      var n1 := (n * 10 + DigitValue(s[i])) % U64_MODULUS;
      if n1 < n * 10 then Failure(ErrRange)
      else Scan(s, i + 1, n1)
  }

  /** The decimal rendering of `n`, without leading zeros. */
  function FormatUint(n: nat): (s: string)
    ensures s != [] && AllDigits(s)
  {
    if n < 10 then [DigitChar(n)] else FormatUint(n / 10) + [DigitChar(n % 10)]
  }

  /** The library's two overflow tests together say exactly "n * 10 + d > 2^64 - 1". */
  lemma OverflowTests(n: U64, d: nat)
    requires d < 10
    ensures n >= Cutoff ==> n * 10 + d > MAX_U64
    ensures n < Cutoff ==> ((n * 10 + d) % U64_MODULUS < n * 10 <==> n * 10 + d > MAX_U64)
    ensures n < Cutoff && n * 10 + d <= MAX_U64 ==> (n * 10 + d) % U64_MODULUS == n * 10 + d
  {
  }

  lemma {:induction false} ValueOfPrefix(s: string, j: nat)
    requires AllDigits(s) && j <= |s|
    ensures AllDigits(s[..j]) && Value(s[..j]) <= Value(s)
    decreases |s|
  {
    if j < |s| {
      var t := s[..|s| - 1];
      assert t[..j] == s[..j];
      ValueOfPrefix(t, j);
    } else {
      assert s[..j] == s;
    }
  }

  lemma ValueOfSnoc(s: string, i: nat)
    requires i < |s| && AllDigits(s[..i + 1])
    ensures AllDigits(s[..i]) && Value(s[..i + 1]) == Value(s[..i]) * 10 + DigitValue(s[i])
  {
    assert s[..i + 1][..i] == s[..i];
  }

  lemma {:induction false} ScanCorrect(s: string, i: nat, n: U64)
    requires i <= |s| && AllDigits(s[..i]) && n == Value(s[..i])
    ensures Scan(s, i, n).Success? <==> AllDigits(s) && Value(s) <= MAX_U64
    ensures Scan(s, i, n).Success? ==> AllDigits(s) && Scan(s, i, n).value == Value(s)
    ensures AllDigits(s) && Value(s) > MAX_U64 ==> Scan(s, i, n) == Failure(ErrRange)
    decreases |s| - i
  {
    if i == |s| {
      assert s[..i] == s;
    } else if !IsDigit(s[i]) {
      assert !AllDigits(s);
    } else {
      assert AllDigits(s[..i + 1]);
      ValueOfSnoc(s, i);
      var d := DigitValue(s[i]);
      OverflowTests(n, d);
      if n * 10 + d > MAX_U64 {
        if AllDigits(s) {
          ValueOfPrefix(s, i + 1);
        }
      } else {
        ScanCorrect(s, i + 1, n * 10 + d);
      }
    }
  }

  /**
   * `ParseUint` accepts exactly the non-empty digit strings whose value fits
   * in a uint64, and returns that value; a digit string too large is a range
   * error; an empty string or one not starting with a digit is a syntax error.
   */
  lemma ParseUintSpec(s: string)
    ensures ParseUint(s).Success? <==> s != "" && AllDigits(s) && Value(s) <= MAX_U64
    ensures ParseUint(s).Success? ==> AllDigits(s) && ParseUint(s).value == Value(s)
    ensures s != "" && AllDigits(s) && Value(s) > MAX_U64 ==> ParseUint(s) == Failure(ErrRange)
    ensures s == "" || !IsDigit(s[0]) ==> ParseUint(s) == Failure(ErrSyntax)
  {
    if s != "" {
      assert s[..0] == [];
      ScanCorrect(s, 0, 0);
    }
  }

  lemma {:induction false} ValueOfFormatUint(n: nat)
    ensures Value(FormatUint(n)) == n
  {
    var s := FormatUint(n);
    if n >= 10 {
      ValueOfFormatUint(n / 10);
      assert s[..|s| - 1] == FormatUint(n / 10);
    }
  }

  /** Round trip: parsing the decimal rendering of a uint64 gives it back. */
  lemma ParseUintOfFormatUint(n: U64)
    ensures ParseUint(FormatUint(n)) == Success(n)
  {
    ValueOfFormatUint(n);
    ParseUintSpec(FormatUint(n));
  }

  /** The decimal rendering of a value above 2^64 - 1 is a range error, not a wrapped value. */
  lemma ParseUintOfLargeFormat(n: nat)
    requires n > MAX_U64
    ensures ParseUint(FormatUint(n)) == Failure(ErrRange)
  {
    ValueOfFormatUint(n);
    ParseUintSpec(FormatUint(n));
  }
}
