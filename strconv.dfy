/** Go's `strconv.Atoi` (base 10, 64-bit `int`), the decimal formatting
    `fmt` uses for integers, and the never-failing wrappers of
    services/helpers.go built on them. */
module Strconv {
  import opened GoInt
  import opened GoStrings
  import opened Wrappers

  const MaxUint64: int := 0xFFFF_FFFF_FFFF_FFFF
  /** `ParseUint`'s guard for base 10: an accumulator at or above it overflows when multiplied by 10. */
  const Cutoff10: int := MaxUint64 / 10 + 1

  predicate IsDigit(c: char) {
    '0' <= c <= '9'
  }

  predicate AllDigits(s: string) {
    forall i | 0 <= i < |s| :: IsDigit(s[i])
  }

  function DigitValue(c: char): nat
    requires IsDigit(c)
  {
    (c as int) - ('0' as int)
  }

  function DigitChar(d: nat): (c: char)
    requires d < 10
    ensures IsDigit(c) && DigitValue(c) == d
  {
    (('0' as int) + d) as char
  }

  function Pow10(k: nat): (p: nat)
    ensures p >= 1
  {
    if k == 0 then 1 else 10 * Pow10(k - 1)
  }

  /** The accumulator of a left-to-right decimal scan: `n` followed by the digits of `s`. */
  function Accumulate(s: string, n: nat): nat
    requires AllDigits(s)
    decreases |s|
  {
    if |s| == 0 then n else Accumulate(s[1..], n * 10 + DigitValue(s[0]))
  }

  /** The number a run of decimal digits denotes. */
  function Value(s: string): nat
    requires AllDigits(s)
  {
    Accumulate(s, 0)
  }

  datatype Scan = Parsed(n: nat) | SyntaxError | RangeError

  /** The digit loop of `strconv.ParseUint(s, 10, 64)`: a non-digit is a syntax
      error, and an accumulator that would pass 2^64-1 stops the scan at once
      with a range error, whatever follows. */
  function ScanDigits(s: string, n: nat): Scan
    requires n <= MaxUint64
    decreases |s|
  {
    if |s| == 0 then Parsed(n)
    else if !IsDigit(s[0]) then SyntaxError
    else if n >= Cutoff10 then RangeError
    else if n * 10 + DigitValue(s[0]) > MaxUint64 then RangeError
    else ScanDigits(s[1..], n * 10 + DigitValue(s[0]))
  }

  datatype AtoiResult = Ok(value: int) | SyntaxErr | RangeErr(clamped: int)

  /** The text after an optional leading `+` or `-`. */
  function Unsigned(s: string): string {
    if |s| > 0 && (s[0] == '-' || s[0] == '+') then s[1..] else s
  }

  /** `strconv.Atoi` on a 64-bit platform. Its fast path for strings shorter
      than 19 bytes gives the same results as this, the `ParseInt` path. */
  function Atoi(s: string): (r: AtoiResult)
    ensures r.Ok? ==> IsInt64(r.value)
    ensures r.RangeErr? ==> r.clamped == MaxInt64 || r.clamped == MinInt64
  {
    var neg := |s| > 0 && s[0] == '-';
    var body := Unsigned(s);
    if |body| == 0 then SyntaxErr
    else match ScanDigits(body, 0)
      case SyntaxError => SyntaxErr
      case RangeError => RangeErr(if neg then MinInt64 else MaxInt64)
      case Parsed(u) =>
        if !neg && u > MaxInt64 then RangeErr(MaxInt64)
        else if neg && u > -MinInt64 then RangeErr(MinInt64)
        else Ok(if neg then 0 - u else u + 0)
  }

  /** `mustAtoi`: `strconv.Atoi` with its error discarded. A syntax error
      yields 0 and an out-of-range number yields the saturated value Go
      returns alongside the error. */
  function MustAtoi(s: string): (r: int)
    ensures IsInt64(r)
    ensures Atoi(s).SyntaxErr? ==> r == 0
  {
    match Atoi(s)
    case Ok(v) => v
    case SyntaxErr => 0
    case RangeErr(c) => c
  }

  /** An optionally signed, non-empty run of ASCII digits. */
  predicate IsDecimal(s: string) {
    |Unsigned(s)| > 0 && AllDigits(Unsigned(s))
  }

  function SignedValue(s: string): int
    requires IsDecimal(s)
  {
    var v: int := Value(Unsigned(s));
    if s[0] == '-' then -v else v
  }

  // ---------------------------------------------------------------------
  // What mustAtoi returns.

  lemma {:induction false} AccumulateAtLeast(s: string, n: nat)
    requires AllDigits(s)
    ensures Accumulate(s, n) >= n
  {
    if |s| > 0 {
      AccumulateAtLeast(s[1..], n * 10 + DigitValue(s[0]));
    }
  }

  /** The digit loop computes the value of the digits exactly, and reports
      overflow exactly when that value does not fit 64 unsigned bits. */
  lemma {:induction false} ScanDigitsValue(s: string, n: nat)
    requires n <= MaxUint64 && AllDigits(s)
    ensures Accumulate(s, n) <= MaxUint64 ==> ScanDigits(s, n) == Parsed(Accumulate(s, n))
    ensures Accumulate(s, n) > MaxUint64 ==> ScanDigits(s, n) == RangeError
  {
    if |s| > 0 {
      var m := n * 10 + DigitValue(s[0]);
      AccumulateAtLeast(s[1..], m);
      if n >= Cutoff10 {
        assert m > MaxUint64;
      } else if m <= MaxUint64 {
        ScanDigitsValue(s[1..], m);
      }
    }
  }

  /** An optionally signed run of digits parses to its value, saturated to
      the int64 range. */
  lemma MustAtoiOfDecimal(s: string)
    requires IsDecimal(s)
    ensures MustAtoi(s) == Clamp64(SignedValue(s))
    ensures IsInt64(SignedValue(s)) ==> Atoi(s) == Ok(SignedValue(s))
  {
    ScanDigitsValue(Unsigned(s), 0);
  }

  lemma {:induction false} ScanDigitsParsedAreDigits(s: string, n: nat)
    requires n <= MaxUint64
    requires ScanDigits(s, n).Parsed?
    ensures AllDigits(s)
  {
    if |s| > 0 {
      ScanDigitsParsedAreDigits(s[1..], n * 10 + DigitValue(s[0]));
    }
  }

  lemma Pow10Grows(k: nat)
    ensures Pow10(k + 1) == 10 * Pow10(k)
  {
  }

  lemma {:induction false} Pow10Monotone(i: nat, j: nat)
    requires i <= j
    ensures Pow10(i) <= Pow10(j)
  {
    if i < j {
      Pow10Monotone(i, j - 1);
    }
  }

  lemma Pow10Of19()
    ensures Pow10(18) == 1_000_000_000_000_000_000
    ensures Pow10(19) == 10_000_000_000_000_000_000
  {
    assert Pow10(1) == 10;
    assert Pow10(2) == 100;
    assert Pow10(3) == 1000;
    assert Pow10(4) == 10000;
    assert Pow10(5) == 100000;
    assert Pow10(6) == 1000000;
    assert Pow10(7) == 10000000;
    assert Pow10(8) == 100000000;
    assert Pow10(9) == 1000000000;
    assert Pow10(10) == 10000000000;
    assert Pow10(11) == 100000000000;
    assert Pow10(12) == 1000000000000;
    assert Pow10(13) == 10000000000000;
    assert Pow10(14) == 100000000000000;
    assert Pow10(15) == 1000000000000000;
    assert Pow10(16) == 10000000000000000;
    assert Pow10(17) == 100000000000000000;
  }

  lemma {:induction false} ShortScanCannotOverflow(s: string, n: nat, m: nat)
    requires n < Pow10(m) && m + |s| <= 19
    ensures n <= MaxUint64
    ensures ScanDigits(s, n) != RangeError
  {
    Pow10Of19();
    Pow10Monotone(m, 19);
    if |s| > 0 {
      Pow10Monotone(m, 18);
    }
    if |s| > 0 && IsDigit(s[0]) {
      var d := DigitValue(s[0]);
      assert n * 10 + d < Pow10(m + 1) by {
        assert n + 1 <= Pow10(m);
        assert (n + 1) * 10 <= Pow10(m) * 10;
      }
      Pow10Grows(m + 1);
      ShortScanCannotOverflow(s[1..], n * 10 + d, m + 1);
    }
  }

  /** Text of at most 19 characters that is not an optionally signed run of
      digits parses to 0: leading or trailing blanks, a dash, a placeholder
      such as an em dash, the empty string. (Longer text can overflow before
      the scan reaches its first non-digit and then saturates instead.) */
  lemma MustAtoiOfNonDecimal(s: string)
    requires !IsDecimal(s) && |s| <= 19
    ensures MustAtoi(s) == 0
    ensures Atoi(s) == SyntaxErr
  {
    var body := Unsigned(s);
    if |body| > 0 {
      ShortScanCannotOverflow(body, 0, 0);
      if ScanDigits(body, 0).Parsed? {
        ScanDigitsParsedAreDigits(body, 0);
        assert false;
      }
    }
  }

  /** Text whose first character is neither a digit nor a sign does not
      parse, however long it is. */
  lemma MustAtoiOfLeadingNonDigit(s: string)
    requires |s| > 0 && !IsDigit(s[0]) && s[0] != '-' && s[0] != '+'
    ensures Atoi(s) == SyntaxErr && MustAtoi(s) == 0
  {
  }

  // ---------------------------------------------------------------------
  // Formatting integers, as fmt's %d and Sprint do.

  lemma {:induction false} AccumulateSnoc(s: string, c: char, n: nat)
    requires AllDigits(s) && IsDigit(c)
    ensures AllDigits(s + [c])
    ensures Accumulate(s + [c], n) == Accumulate(s, n) * 10 + DigitValue(c)
  {
    if |s| > 0 {
      assert (s + [c])[1..] == s[1..] + [c];
      AccumulateSnoc(s[1..], c, n * 10 + DigitValue(s[0]));
    } else {
      assert (s + [c])[1..] == [];
    }
  }

  /** The decimal digits of `n`, most significant first, without leading zeros. */
  function NatToDecimal(n: nat): (r: string)
    ensures |r| > 0 && AllDigits(r) && Value(r) == n
    ensures |r| > 1 ==> r[0] != '0'
  {
    if n < 10 then
      var r := [DigitChar(n)];
      assert Accumulate(r, 0) == Accumulate(r[1..], DigitValue(r[0]));
      assert r[1..] == [];
      r
    else
      var prefix := NatToDecimal(n / 10);
      AccumulateSnoc(prefix, DigitChar(n % 10), 0);
      prefix + [DigitChar(n % 10)]
  }

  /** `strconv.Itoa` / `fmt.Sprint` of an int. */
  function Itoa(n: int): (r: string)
    ensures |r| > 0 && IsDecimal(r) && r[0] != '+'
  {
    if n < 0 then "-" + NatToDecimal(-n) else NatToDecimal(n)
  }

  /** Formatting then parsing an int64 gives it back. */
  lemma MustAtoiOfItoa(n: int)
    requires IsInt64(n)
    ensures Atoi(Itoa(n)) == Ok(n)
    ensures MustAtoi(Itoa(n)) == n
  {
    var s := Itoa(n);
    if n < 0 {
      assert Unsigned(s) == NatToDecimal(-n);
    } else {
      assert Unsigned(s) == NatToDecimal(n);
    }
    MustAtoiOfDecimal(s);
  }

  lemma ItoaInjective(a: int, b: int)
    requires IsInt64(a) && IsInt64(b) && Itoa(a) == Itoa(b)
    ensures a == b
  {
    MustAtoiOfItoa(a);
    MustAtoiOfItoa(b);
  }

  // ---------------------------------------------------------------------
  // mustParseFloat.

  /** A plain decimal literal: an optional sign, then digits with at most
      one `.` among them and at least one digit. */
  predicate IsDecimalLiteral(s: string) {
    var body := Unsigned(s);
    match Index(body, ".")
    case None => |body| > 0 && AllDigits(body)
    case Some(i) => AllDigits(body[..i]) && AllDigits(body[i + 1..]) && |body| > 1
  }

  /** `mustParseFloat` on plain decimal literals: the exact decimal value,
      and 0.0 for text `strconv.ParseFloat` rejects. */
  function MustParseFloat(s: string): (r: real)
    ensures !IsDecimalLiteral(s) ==> r == 0.0
  {
    var body := Unsigned(s);
    var neg := |s| > 0 && s[0] == '-';
    match Index(body, ".")
    case None =>
      if |body| > 0 && AllDigits(body) then Negate(neg, Value(body) as real) else 0.0
    case Some(i) =>
      if AllDigits(body[..i]) && AllDigits(body[i + 1..]) && |body| > 1
      then Negate(neg, (Value(body[..i]) as real) + (Value(body[i + 1..]) as real) / (Pow10(|body| - i - 1) as real))
      else 0.0
  }

  function Negate(neg: bool, x: real): real {
    if neg then -x else x
  }

  lemma DigitsHaveNoDot(s: string)
    requires AllDigits(s)
    ensures forall k | 0 <= k < |s| :: s[k] != '.'
    ensures '.' !in s
  {
  }

  lemma {:induction false} ValueBelowPow10(s: string)
    requires AllDigits(s)
    ensures Value(s) < Pow10(|s|)
  {
    if |s| > 0 {
      var init := s[..|s| - 1];
      assert s == init + [s[|s| - 1]];
      AccumulateSnoc(init, s[|s| - 1], 0);
      ValueBelowPow10(init);
      Pow10Grows(|init|);
    }
  }

  /** On an optionally signed run of at most 18 digits the two parsers agree. */
  lemma FloatAgreesWithInt(s: string)
    requires IsDecimal(s) && |Unsigned(s)| <= 18
    ensures MustParseFloat(s) == MustAtoi(s) as real
  {
    var body := Unsigned(s);
    DigitsHaveNoDot(body);
    IndexOfPiece(body, ".");
    ValueBelowPow10(body);
    Pow10Of19();
    Pow10Monotone(|body|, 18);
    MustAtoiOfDecimal(s);
  }
}
