/**
 * The `atoi` helper of the SKU importer and the `strconv.Atoi` call it wraps
 * (Go, 64-bit `int`): an optional `+` or `-`, then one or more decimal digits,
 * and a value that fits in 64 bits. Any other input is an error, which `atoi`
 * turns into 0.
 */
module Strconv {
  import opened Wrappers

  const MaxInt: int := 0x7FFF_FFFF_FFFF_FFFF
  const MinInt: int := -0x8000_0000_0000_0000

  predicate IsDigit(c: char) { '0' <= c <= '9' }

  predicate AllDigits(s: string) { forall i :: 0 <= i < |s| ==> IsDigit(s[i]) }

  function DigitValue(c: char): nat
    requires IsDigit(c)
  {
    c as int - '0' as int
  }

  function Digit(d: nat): (c: char)
    requires d < 10
    ensures IsDigit(c) && DigitValue(c) == d
  {
    ('0' as int + d) as char
  }

  /** The value of a run of decimal digits, most significant digit first. */
  function DecimalValue(ds: string): nat
    requires AllDigits(ds)
  {
    if ds == [] then 0 else DecimalValue(ds[..|ds| - 1]) * 10 + DigitValue(ds[|ds| - 1])
  }

  predicate HasSign(s: string) { |s| > 0 && (s[0] == '+' || s[0] == '-') }

  /** The part of `s` after an optional leading sign. */
  function Magnitude(s: string): string
  {
    if HasSign(s) then s[1..] else s
  }

  /** The syntax `strconv.Atoi` accepts in base 10: `[+-]?[0-9]+`. */
  predicate WellFormed(s: string)
  {
    |Magnitude(s)| > 0 && AllDigits(Magnitude(s))
  }

  /** The signed value a well-formed string denotes, of any size. */
  function SignedValue(s: string): int
    requires WellFormed(s)
  {
    var mag: int := DecimalValue(Magnitude(s));
    if s[0] == '-' then -mag else mag
  }

  /**
   * `strconv.Atoi(s)`: the value, or `None` for a syntax error or for a value
   * outside the 64-bit range (Go's `ErrSyntax` and `ErrRange`).
   */
  function ParseInt(s: string): (r: Option<int>)
    ensures r.Some? <==> WellFormed(s) && MinInt <= SignedValue(s) <= MaxInt
    ensures r.Some? ==> r.value == SignedValue(s)
  {
    if !WellFormed(s) then None
    else
      var v := SignedValue(s);
      if MinInt <= v <= MaxInt then Some(v) else None
  }

  /** `atoi`: the parsed value, or 0 whenever `strconv.Atoi` reports an error. */
  function Atoi(s: string): (n: int)
    ensures MinInt <= n <= MaxInt
    ensures !WellFormed(s) ==> n == 0
    ensures n == if WellFormed(s) && MinInt <= SignedValue(s) <= MaxInt then SignedValue(s) else 0
  {
    match ParseInt(s)
    case Some(v) => v
    case None => 0
  }

  /** The shortest decimal rendering of `n` (`strconv.Itoa` for n >= 0). */
  function Decimal(n: nat): (ds: string)
    ensures |ds| > 0 && AllDigits(ds)
    ensures DecimalValue(ds) == n
  {
    if n < 10 then [Digit(n)]
    else
      var ds := Decimal(n / 10) + [Digit(n % 10)];
      assert ds[..|ds| - 1] == Decimal(n / 10);
      ds
  }

  /** `strconv.Itoa`: a minus sign for negative values, then the digits. */
  function FormatInt(i: int): (s: string)
    ensures WellFormed(s)
  {
    if i < 0 then "-" + Decimal(-i) else Decimal(i)
  }

  /** `atoi` reads back every 64-bit integer written in decimal. */
  lemma AtoiFormatInt(i: int)
    requires MinInt <= i <= MaxInt
    ensures Atoi(FormatInt(i)) == i
  {
    var s := FormatInt(i);
    if i < 0 {
      assert Magnitude(s) == Decimal(-i);
    } else {
      assert IsDigit(s[0]);
      assert Magnitude(s) == Decimal(i);
    }
  }

  /** A digit string one past the largest 64-bit value is a range error, so 0. */
  lemma AtoiOverflowIsZero()
    ensures Atoi(Decimal(MaxInt + 1)) == 0
    ensures Atoi("-" + Decimal(MaxInt + 1)) == MinInt
  {
    var s := Decimal(MaxInt + 1);
    assert IsDigit(s[0]);
    assert Magnitude(s) == s;
    var t := "-" + s;
    assert Magnitude(t) == s;
  }

  /** Examples: non-numbers give 0, signs are read. */
  lemma AtoiExamples()
    ensures Atoi("notanumber") == 0
    ensures Atoi("") == 0
    ensures Atoi("-") == 0
    ensures Atoi("+8") == 8
    ensures Atoi("-12") == -12
  {
    assert !AllDigits("notanumber") by { assert !IsDigit("notanumber"[0]); }
    assert Magnitude("+8") == "8";
    assert DecimalValue("8") == 8;
    assert Magnitude("-12") == "12";
    assert "12"[..1] == "1";
    assert DecimalValue("1") == 1;
    assert DecimalValue("12") == 12;
  }
}
