/** Exact on-chain amount arithmetic: decimal strings to fixed-point integers (ethers'
    `parseUnits`/`parseEther`), JavaScript's `toFixed` over exact reals, the 30 bps protocol fee
    computed with big-integer arithmetic, the value/allowance needed, and the gas ceiling. */
module Amounts {
  import opened Wrappers
  import opened Text

  predicate IsPoint(c: char) { c == '.' }

  predicate IsDigitOrPoint(c: char) { IsDigit(c) || IsPoint(c) }

  predicate AllDigitsOrPoints(s: string) {
    forall k :: 0 <= k < |s| ==> IsDigitOrPoint(s[k])
  }

  /** What follows an optional leading minus sign. */
  function Unsigned(s: string): string {
    if |s| > 0 && s[0] == '-' then s[1..] else s
  }

  /** The regular expression `/^-?[0-9.]+$/` that ethers applies before parsing a decimal. */
  predicate IsDecimalLiteral(s: string) {
    |Unsigned(s)| > 0 && AllDigitsOrPoints(Unsigned(s))
  }

  /** Removes the trailing zeros of a fraction; the result is a prefix of the input. */
  function StripTrailingZeros(f: string): (r: string)
    ensures |r| <= |f| && r == f[..|r|]
    ensures r == [] || r[|r| - 1] != '0'
    ensures forall k :: |r| <= k < |f| ==> f[k] == '0'
  {
    if f != [] && f[|f| - 1] == '0' then StripTrailingZeros(f[..|f| - 1]) else f
  }

  /** Stripping trailing zeros divides the value by 10 per zero removed, exactly. */
  lemma StripTrailingZerosValue(f: string)
    requires AllDigits(f)
    ensures AllDigits(StripTrailingZeros(f))
    ensures DigitsValue(f) == DigitsValue(StripTrailingZeros(f)) * Pow10(|f| - |StripTrailingZeros(f)|)
  {
    var t := StripTrailingZeros(f);
    var m := |f| - |t|;
    assert f == t + Zeros(m);
    TrailingZeros(t, m);
  }

  /** `whole.fraction` scaled to `decimals` digits: the fraction is padded with zeros. */
  function FixedValue(whole: string, fraction: string, decimals: nat): nat
    requires AllDigits(whole) && AllDigits(fraction) && |fraction| <= decimals
  {
    DigitsValue(whole) * Pow10(decimals) + DigitsValue(fraction) * Pow10(decimals - |fraction|)
  }

  /** The unsigned part of `parseFixed`: split at the points, trim the fraction's trailing zeros,
      refuse a fraction longer than `decimals`, then scale. */
  function ParseUnsigned(body: string, decimals: nat): Result<nat, string>
    requires AllDigitsOrPoints(body)
  {
    var comps := Split(body, IsPoint);
    if |comps| > 2 then Err("too many decimal points")
    else
      SplitChars(body, IsPoint, IsDigitOrPoint);
      SplitPiecesFree(body, IsPoint);
      var fraction := StripTrailingZeros(if |comps| == 2 then comps[1] else "");
      if |fraction| > decimals then Err("fractional component exceeds decimals")
      else Ok(FixedValue(comps[0], fraction, decimals))
  }

  /** ethers' `parseUnits(s, decimals)` (`parseFixed`): the integer `s * 10^decimals`, or the
      error ethers throws. The fraction may have at most `decimals` significant digits; a leading
      `-` negates the result. */
  function ParseUnits(s: string, decimals: nat): (r: Result<int, string>)
    ensures r.Ok? ==> IsDecimalLiteral(s)
    ensures r.Ok? && s[0] != '-' ==> r.value >= 0
    ensures r.Ok? && s[0] == '-' ==> r.value <= 0
  {
    if !IsDecimalLiteral(s) then Err("invalid decimal value")
    else
      var body := Unsigned(s);
      if body == "." then Err("missing value")
      else
        match ParseUnsigned(body, decimals)
        case Err(e) => Err(e)
        case Ok(v) =>
          var w: int := v;
          Ok(if s[0] == '-' then -w else w)
  }

  /** `parseEther(s)`: native currency always has 18 decimals. */
  function ParseEther(s: string): Result<int, string> {
    ParseUnits(s, 18)
  }

  lemma {:induction false} Pow10Add(a: nat, b: nat)
    ensures Pow10(a + b) == Pow10(a) * Pow10(b)
  {
    if a > 0 {
      Pow10Add(a - 1, b);
      assert Pow10(a + b) == 10 * Pow10(a - 1 + b);
    }
  }

  /** The fixed-point integer `n` with `k` fraction digits written as a decimal string,
      `whole.fraction`, the fraction padded to exactly `k` digits (no point when `k` is 0). */
  function FormatFixed(n: nat, k: nat): (r: string)
    ensures r != [] && IsDigit(r[0])
  {
    if k == 0 then NatToString(n)
    else NatToString(DropDigits(n, k)) + "." + PaddedDigits(n, k)
  }

  lemma ScaleStep(q: int, pk: int, p: int, pd: int, v: int, pm: int, pt: int, rem: int, n: int)
    requires pd == pk * p && pt == pm * p && rem == v * pm && q * pk + rem == n
    ensures q * pd + v * pt == n * p
  {
    assert q * pd == (q * pk) * p;
    assert v * pt == (v * pm) * p;
  }

  /** The scaled value of `whole.fraction` when the fraction has `k` digits. */
  lemma ScaledFraction(q: nat, frac: string, k: nat, decimals: nat, n: nat)
    requires k <= decimals && |frac| == k && AllDigits(frac)
    requires q * Pow10(k) + DigitsValue(frac) == n
    ensures AllDigits(StripTrailingZeros(frac))
    ensures FixedValue(NatToString(q), StripTrailingZeros(frac), decimals) == n * Pow10(decimals - k)
  {
    var t := StripTrailingZeros(frac);
    StripTrailingZerosValue(frac);
    NatToStringValue(q);
    var m := k - |t|;
    Pow10Add(m, decimals - k);
    assert decimals - |t| == m + (decimals - k);
    Pow10Add(k, decimals - k);
    assert decimals == k + (decimals - k);
    ScaleStep(q, Pow10(k), Pow10(decimals - k), Pow10(decimals), DigitsValue(t), Pow10(m),
              Pow10(decimals - |t|), DigitsValue(frac), n);
  }

  /** A literal that starts with a digit is parsed by its unsigned part alone. */
  lemma ParseUnitsUnsigned(s: string, decimals: nat)
    requires s != [] && IsDigit(s[0]) && AllDigitsOrPoints(s)
    ensures ParseUnits(s, decimals) == match ParseUnsigned(s, decimals)
                                       case Ok(v) => Ok(v as int)
                                       case Err(e) => Err(e)
  {
    assert Unsigned(s) == s;
  }

  /** `whole.fraction` with at most `decimals` significant fraction digits. */
  lemma ParseTwoPieces(s: string, whole: string, frac: string, decimals: nat)
    requires AllDigitsOrPoints(s) && Split(s, IsPoint) == [whole, frac]
    requires AllDigits(whole) && AllDigits(StripTrailingZeros(frac))
    requires |StripTrailingZeros(frac)| <= decimals
    ensures ParseUnsigned(s, decimals) == Ok(FixedValue(whole, StripTrailingZeros(frac), decimals))
  {
  }

  /** Every amount the application formats with `k <= decimals` fraction digits parses back,
      without error, to that amount scaled to `decimals`. */
  lemma FormatFixedParses(n: nat, k: nat, decimals: nat)
    requires k <= decimals
    ensures ParseUnits(FormatFixed(n, k), decimals) == Ok(n * Pow10(decimals - k))
  {
    if k == 0 {
      FormatWholeParses(n, decimals);
    } else {
      FormatFractionParses(n, k, decimals);
    }
  }

  lemma FormatWholeParses(n: nat, decimals: nat)
    ensures ParseUnits(FormatFixed(n, 0), decimals) == Ok(n * Pow10(decimals))
  {
    var s := FormatFixed(n, 0);
    assert AllDigitsOrPoints(s);
    SplitWithoutSeparator(s, IsPoint);
    NatToStringValue(n);
    ParseUnitsUnsigned(s, decimals);
    assert ParseUnsigned(s, decimals) == Ok(FixedValue(s, "", decimals));
  }

  lemma FormatFractionParses(n: nat, k: nat, decimals: nat)
    requires 0 < k <= decimals
    ensures ParseUnits(FormatFixed(n, k), decimals) == Ok(n * Pow10(decimals - k))
  {
    var s := FormatFixed(n, k);
    var whole := NatToString(DropDigits(n, k));
    var frac := PaddedDigits(n, k);
    assert s == whole + ['.'] + frac;
    assert AllDigitsOrPoints(s);
    SplitAtSeparator(whole, '.', frac, IsPoint);
    SplitWithoutSeparator(frac, IsPoint);
    PaddedDigitsValue(n, k);
    ScaledFraction(DropDigits(n, k), frac, k, decimals, n);
    ParseTwoPieces(s, whole, frac, decimals);
    ParseUnitsUnsigned(s, decimals);
  }

  /** Rounds a non-negative real to the nearest integer, halves upwards. */
  function RoundHalfUp(y: real): (n: nat)
    requires y >= 0.0
    ensures n as real - 0.5 <= y < n as real + 0.5
  {
    (y + 0.5).Floor
  }

  function Abs(x: real): real { if x < 0.0 then -x else x }

  /** The integer nearest to `|x| * 10^k` (the larger on a tie): the digits `x.toFixed(k)` writes. */
  function Rounded(x: real, k: nat): (n: nat)
    ensures n as real - 0.5 <= Abs(x) * (Pow10(k) as real) < n as real + 0.5
  {
    RoundHalfUp(Abs(x) * (Pow10(k) as real))
  }

  /** `x.toFixed(k)` over exact reals: JavaScript writes the rounded magnitude with `k` fraction
      digits and prefixes `-` when `x < 0`. */
  function ToFixed(x: real, k: nat): (r: string)
    ensures r != [] && (r[0] == '-' <==> x < 0.0)
  {
    var digits := FormatFixed(Rounded(x, k), k);
    if x < 0.0 then "-" + digits else digits
  }

  /** The signed integer that `x.toFixed(k)` denotes at `k` fraction digits. */
  function FixedUnits(x: real, k: nat): int {
    var n: int := Rounded(x, k);
    if x < 0.0 then -n else n
  }

  /** A `toFixed(k)` string read back with `decimals >= k` never fails: it denotes `x` rounded
      to `k` fraction digits, scaled to `decimals`. */
  lemma ToFixedParses(x: real, k: nat, decimals: nat)
    requires k <= decimals
    ensures ParseUnits(ToFixed(x, k), decimals) == Ok(FixedUnits(x, k) * Pow10(decimals - k))
  {
    SignedFixedParses(x < 0.0, Rounded(x, k), k, decimals);
  }

  lemma SignedFixedParses(negative: bool, n: nat, k: nat, decimals: nat)
    requires k <= decimals
    ensures ParseUnits(if negative then "-" + FormatFixed(n, k) else FormatFixed(n, k), decimals)
         == Ok((if negative then -(n as int) else n as int) * Pow10(decimals - k))
  {
    FormatFixedParses(n, k, decimals);
    if negative {
      NegativeLiteral(FormatFixed(n, k), decimals, n * Pow10(decimals - k));
      NegateStep(n, Pow10(decimals - k));
    }
  }

  /** A leading minus sign negates what the digits denote. */
  lemma NegativeLiteral(digits: string, decimals: nat, v: int)
    requires digits != [] && IsDigit(digits[0]) && ParseUnits(digits, decimals) == Ok(v)
    ensures ParseUnits("-" + digits, decimals) == Ok(-v)
  {
    var s := "-" + digits;
    assert Unsigned(s) == digits;
    assert Unsigned(digits) == digits;
  }

  lemma NegateStep(n: int, p: int)
    ensures -(n * p) == (-n) * p
  {
  }

  lemma ScaleAbs(x: real, p: real)
    ensures x * p == if x < 0.0 then -(Abs(x) * p) else Abs(x) * p
  {
  }

  /** The fixed-point amount `toFixed(k)` produces is within half a unit of the last digit of `x`:
      the formatting rounds to nearest, so it may exceed `x`. */
  lemma FixedUnitsNearest(x: real, k: nat)
    ensures Abs(FixedUnits(x, k) as real - x * (Pow10(k) as real)) <= 0.5
  {
    NearestStep(x, Pow10(k) as real, Rounded(x, k), FixedUnits(x, k));
  }

  lemma NearestStep(x: real, p: real, n: int, f: int)
    requires n as real - 0.5 <= Abs(x) * p < n as real + 0.5
    requires f == if x < 0.0 then -n else n
    ensures Abs(f as real - x * p) <= 0.5
  {
    ScaleAbs(x, p);
  }

  /** Largest value an ABI `uint256` argument can carry, plus one. */
  const Uint256Limit: int := 0x1_0000_0000_0000_0000_0000_0000_0000_0000_0000_0000_0000_0000_0000_0000_0000_0000

  predicate IsUint256(v: int) { 0 <= v < Uint256Limit }

  /** The protocol fee in basis points (`feeBps` of the batch contract). */
  const FeeBps: nat := 30
  const BpsDenominator: nat := 10000

  /** `BigNumber.div`: integer division truncating toward zero. */
  function TruncDiv(a: int, b: nat): int
    requires b > 0
  {
    if a >= 0 then a / b else -((-a) / b)
  }

  /** `total.mul(30).div(10000)`: the fee the batch contract adds on top of a total. */
  function Fee(total: int): int {
    TruncDiv(total * FeeBps, BpsDenominator)
  }

  /** On a non-negative total the fee is floor(total * 30 / 10000), never more than the total. */
  lemma FeeIsFloor(total: int)
    requires total >= 0
    ensures 0 <= Fee(total) <= total
    ensures Fee(total) * BpsDenominator <= total * FeeBps < (Fee(total) + 1) * BpsDenominator
  {
  }

  /** `total.add(feeWei)`: the value attached to a native batch and the allowance a token batch needs. */
  function Needed(total: int): int {
    total + Fee(total)
  }

  /** A larger total never needs less, and the fee never makes the need smaller than the total. */
  lemma NeededMonotone(a: int, b: int)
    requires 0 <= a <= b
    ensures a <= Needed(a) <= Needed(b)
  {
    FeeIsFloor(a);
    FeeIsFloor(b);
    assert a * FeeBps <= b * FeeBps;
  }

  /** `Math.ceil` over exact reals. */
  function Ceil(x: real): (r: int)
    ensures r as real - 1.0 < x <= r as real
  {
    -((-x).Floor)
  }

  /** `Math.ceil((80000 + recipientCount * 40000) * 1.2)`. */
  function GasLimit(recipientCount: nat): int {
    Ceil((80000 + recipientCount * 40000) as real * 1.2)
  }

  /** The gas ceiling is exactly 96000 + 48000 per recipient. */
  lemma GasLimitClosedForm(recipientCount: nat)
    ensures GasLimit(recipientCount) == 96000 + 48000 * recipientCount
  {
    var x := (80000 + recipientCount * 40000) as real * 1.2;
    assert x == (96000 + 48000 * recipientCount) as real;
  }

  /** Each additional recipient raises the gas ceiling. */
  lemma GasLimitIncreasing(m: nat, n: nat)
    requires m < n
    ensures GasLimit(m) < GasLimit(n)
  {
    GasLimitClosedForm(m);
    GasLimitClosedForm(n);
  }
}
