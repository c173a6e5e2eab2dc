/**
 * The number conversions the input options rely on: Integer.parseInt,
 * Double.parseDouble (on plain decimal strings, held exactly as a real),
 * and the `%d` and `%f` renderings of String.format.
 */
module NumberParsing {
  import opened Base
  import opened Strings

  const MinInt32: int := -0x8000_0000
  const MaxInt32: int := 0x7FFF_FFFF

  predicate IsDigit(c: char)
  {
    '0' <= c <= '9'
  }

  predicate AllDigits(s: string)
  {
    forall i :: 0 <= i < |s| ==> IsDigit(s[i])
  }

  /** The value of a run of decimal digits, most significant first. */
  function DigitsValue(s: string): nat
    requires AllDigits(s)
  {
    if |s| == 0 then 0 else DigitsValue(s[..|s| - 1]) * 10 + (s[|s| - 1] as int - '0' as int)
  }

  /** The value of the digits after a decimal point: 0.d1d2... = (d1 + 0.d2...) / 10. */
  function FractionValue(s: string): (r: real)
    requires AllDigits(s)
    ensures 0.0 <= r < 1.0
  {
    if |s| == 0 then 0.0 else ((s[0] as int - '0' as int) as real + FractionValue(s[1..])) / 10.0
  }

  /** The digits after an optional leading sign. */
  function Unsigned(s: string): string
  {
    if |s| > 0 && (s[0] == '-' || s[0] == '+') then s[1..] else s
  }

  predicate Negative(s: string)
  {
    |s| > 0 && s[0] == '-'
  }

  /** Integer.parseInt: an optional sign, one or more digits, within the 32-bit range. */
  function ParseInt(s: string): (r: Option<int>)
    ensures r.Some? ==> MinInt32 <= r.value <= MaxInt32
  {
    var digits := Unsigned(s);
    if |digits| == 0 || !AllDigits(digits) then None
    else
      var v: int := if Negative(s) then -(DigitsValue(digits) as int) else DigitsValue(digits);
      if MinInt32 <= v <= MaxInt32 then Some(v) else None
  }

  /**
   * Double.parseDouble on a plain decimal: surrounding blanks ignored, an
   * optional sign, digits with at most one '.', at least one digit.
   */
  function ParseDecimal(s: string): Option<real>
  {
    var t := Trim(s);
    match DecimalMagnitude(Unsigned(t))
    case None => None
    case Some(magnitude) => Some(if Negative(t) then -magnitude else magnitude)
  }

  /** The value of digits with at most one '.', at least one digit in all. */
  function DecimalMagnitude(body: string): Option<real>
  {
    var integral := PrefixBeforePeriod(body);
    var rest := body[|integral|..];
    var fraction := if |rest| > 0 then rest[1..] else "";
    if |integral| + |fraction| == 0 || !AllDigits(integral) || !AllDigits(fraction) then None
    else Some(DigitsValue(integral) as real + FractionValue(fraction))
  }

  /** The characters before the first '.', or the whole string. */
  function PrefixBeforePeriod(s: string): (r: string)
    ensures |r| <= |s| && r == s[..|r|]
    ensures |r| < |s| ==> s[|r|] == '.'
    ensures '.' !in r
  {
    if |s| == 0 || s[0] == '.' then "" else [s[0]] + PrefixBeforePeriod(s[1..])
  }

  /** The six-digit fraction of `%f`, zero-padded on the left. */
  function PadSix(n: nat): (r: string)
    requires n < 1000000
  {
    var digits := NatToString(n);
    Repeat('0', 6 - |digits|) + digits
  }

  function Repeat(c: char, n: int): (r: string)
    ensures |r| == (if n < 0 then 0 else n)
  {
    if n <= 0 then "" else [c] + Repeat(c, n - 1)
  }

  /** `%f`: six decimals, the magnitude rounded half up, a '-' for a negative value. */
  function FormatFixed(x: real): string
  {
    (if x < 0.0 then "-" else "") + FixedDigits(RoundedMillionths(x))
  }

  /** The magnitude of `x` in millionths, rounded half up. */
  function RoundedMillionths(x: real): nat
  {
    var magnitude := if x < 0.0 then -x else x;
    (magnitude * 1000000.0 + 0.5).Floor
  }

  /** A count of millionths written as a decimal with six places. */
  function FixedDigits(millionths: nat): string
  {
    NatToString(millionths / 1000000) + "." + PadSix(millionths % 1000000)
  }

  // ---------------------------------------------------------------------
  // Properties
  // ---------------------------------------------------------------------

  lemma {:induction false} DigitsOfNatToString(n: nat)
    ensures AllDigits(NatToString(n)) && DigitsValue(NatToString(n)) == n
  {
    NatToStringDigits(n);
    if n >= 10 {
      DigitsOfNatToString(n / 10);
      var s := NatToString(n);
      assert s[..|s| - 1] == NatToString(n / 10);
    }
  }

  /** Every 32-bit integer, rendered by `%d`, is parsed back by Integer.parseInt. */
  lemma ParseIntOfIntToString(n: int)
    requires MinInt32 <= n <= MaxInt32
    ensures ParseInt(IntToString(n)) == Some(n)
  {
    var magnitude: nat := if n < 0 then -n else n;
    var digits := NatToString(magnitude);
    DigitsOfNatToString(magnitude);
    NatToStringDigits(magnitude);
    var s := IntToString(n);
    if n < 0 {
      assert s == "-" + digits;
      assert s[1..] == digits;
      assert Unsigned(s) == digits && Negative(s);
    } else {
      assert s == digits;
      assert !IsDigit('-') && !IsDigit('+') && IsDigit(digits[0]);
      assert Unsigned(s) == digits && !Negative(s);
    }
  }

  /** A string of digits with an optional sign is the same number for both parsers, when in range. */
  lemma {:induction false} ParseDecimalOfInteger(s: string)
    requires ParseInt(s).Some? && Trim(s) == s
    ensures ParseDecimal(s) == Some(ParseInt(s).value as real)
  {
    var body := Unsigned(s);
    NoPeriodPrefix(body);
  }

  /** A plain run of digits is read by parseDouble as the whole number it denotes. */
  lemma ParseDecimalOfDigits(s: string)
    requires |s| > 0 && AllDigits(s)
    ensures ParseDecimal(s) == Some(DigitsValue(s) as real)
  {
    DigitStringTrimmed(s);
    assert !IsDigit('-') && !IsDigit('+') && IsDigit(s[0]);
    assert Unsigned(s) == s && !Negative(s);
    MagnitudeOfDigits(s);
  }

  lemma MagnitudeOfDigits(s: string)
    requires |s| > 0 && AllDigits(s)
    ensures DecimalMagnitude(s) == Some(DigitsValue(s) as real)
  {
    NoPeriodPrefix(s);
    assert s[|s|..] == "";
    assert FractionValue("") == 0.0;
  }

  lemma DigitStringTrimmed(s: string)
    requires |s| > 0 && AllDigits(s)
    ensures Trim(s) == s
  {
    assert TrimStart(s) == s;
    assert TrimEnd(s) == s;
  }

  lemma {:induction false} NoPeriodPrefix(s: string)
    requires AllDigits(s)
    ensures PrefixBeforePeriod(s) == s
  {
    if |s| > 0 {
      NoPeriodPrefix(s[1..]);
    }
  }

  /** A whole number is rendered by `%f` with six zero decimals. */
  lemma FormatFixedWhole(n: nat)
    ensures FormatFixed(n as real) == NatToString(n) + ".000000"
  {
    var k := n * 1000000;
    assert n as real * 1000000.0 + 0.5 == k as real + 0.5;
    assert RoundedMillionths(n as real) == k;
    assert k / 1000000 == n && k % 1000000 == 0;
    PadSixZero();
  }

  lemma PadSixZero()
    ensures PadSix(0) == "000000"
  {
    assert NatToString(0) == "0";
    assert Repeat('0', 5) == "00000";
  }
}
