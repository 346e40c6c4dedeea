/**
 * The JavaScript number operations the client relies on: `Math.round`, the
 * conversion of a number to a string (`"" + n`) and of a string to a number
 * (the `ToNumber` used by loose equality). JavaScript numbers are modelled as
 * mathematical reals; NaN and the infinities are not modelled.
 */
module JsNumbers {
  import opened Outcomes

  /** `Math.round(x)`: the nearest integer, a half rounded up toward +infinity. */
  function Round(x: real): (r: int)
    ensures r as real - 0.5 <= x < r as real + 0.5
  {
    (x + 0.5).Floor
  }

  lemma RoundIsUnique(x: real, k: int)
    requires k as real - 0.5 <= x < k as real + 0.5
    ensures Round(x) == k
  {
  }

  /** `Math.round` keeps whole numbers, so whole amounts in major units scale exactly. */
  lemma RoundOfWhole(k: int)
    ensures Round(k as real) == k
  {
  }

  predicate IsDigit(c: char) { '0' <= c <= '9' }

  predicate IsDigits(s: string) {
    forall i :: 0 <= i < |s| ==> IsDigit(s[i])
  }

  function DigitChar(d: nat): (c: char)
    requires d < 10
    ensures IsDigit(c) && c as int - '0' as int == d
  {
    ('0' as int + d) as char
  }

  /** Decimal digits of a natural number, without leading zeros. */
  function NatToString(n: nat): (s: string)
    ensures |s| > 0 && IsDigits(s)
    ensures s[0] == '0' ==> n == 0
  {
    if n < 10 then [DigitChar(n)] else NatToString(n / 10) + [DigitChar(n % 10)]
  }

  /** The value of a string of decimal digits (the empty string reads as 0). */
  function ParseDigits(s: string): nat
    requires IsDigits(s)
  {
    if s == [] then 0
    else 10 * ParseDigits(s[..|s| - 1]) + (s[|s| - 1] as int - '0' as int)
  }

  lemma {:induction false} ParseNatToString(n: nat)
    ensures ParseDigits(NatToString(n)) == n
  {
    var s := NatToString(n);
    if n >= 10 {
      ParseNatToString(n / 10);
      assert s[..|s| - 1] == NatToString(n / 10);
    }
  }

  /** `"" + i` for an integral number i. */
  function IntToString(i: int): (s: string)
    ensures |s| > 0
    ensures s[0] == '-' <==> i < 0
    ensures i >= 0 ==> IsDigits(s)
    ensures i < 0 ==> IsDigits(s[1..])
  {
    if i < 0 then "-" + NatToString(-i) else NatToString(i)
  }

  /** Reads back what IntToString writes: an optional minus sign and decimal digits. */
  function ParseInt(s: string): Option<int>
  {
    if |s| > 1 && s[0] == '-' && IsDigits(s[1..]) then Some(0 - ParseDigits(s[1..]) as int)
    else if |s| > 0 && IsDigits(s) then Some(ParseDigits(s))
    else None
  }

  lemma ParseIntToString(i: int)
    ensures ParseInt(IntToString(i)) == Some(i)
  {
    var s := IntToString(i);
    if i < 0 {
      assert s[1..] == NatToString(-i);
      ParseNatToString(-i);
    } else {
      assert !IsDigit('-');
      ParseNatToString(i);
    }
  }

  /** At most this many digits are written after the decimal point. */
  const FractionDigitsLimit: nat := 20

  /** The decimal digits of a fraction in (0, 1), cut after `fuel + 1` digits. */
  function FractionDigits(f: real, fuel: nat): (s: string)
    requires 0.0 < f < 1.0
    ensures 0 < |s| <= fuel + 1 && IsDigits(s)
    decreases fuel
  {
    var d := (f * 10.0).Floor;
    var rest := f * 10.0 - d as real;
    [DigitChar(d)] + (if rest == 0.0 || fuel == 0 then [] else FractionDigits(rest, fuel - 1))
  }

  /** `"" + n`: whole numbers are written like IntToString, other numbers as a
   *  decimal fraction cut after 20 digits. JavaScript writes whole numbers
   *  from 1e21 up in exponent notation and other numbers with the shortest
   *  digits that read back; neither is modelled. */
  function NumberToString(n: real): (s: string)
    ensures n == n.Floor as real ==> s == IntToString(n.Floor)
    ensures |s| > 0
  {
    if n == n.Floor as real then IntToString(n.Floor)
    else if n < 0.0 then NegativeDecimal(n)
    else PositiveDecimal(n)
  }

  function NegativeDecimal(n: real): string
    requires n < 0.0 && n != n.Floor as real
  {
    WholeNegation(n);
    "-" + PositiveDecimal(-n)
  }

  /** The negation of a whole number is whole, so the negation of a number
   *  that is not whole is not whole either. */
  lemma WholeNegation(x: real)
    ensures -x == (-x).Floor as real ==> x == x.Floor as real
  {
    if -x == (-x).Floor as real {
      var k := (-x).Floor;
      assert x == (-k) as real;
    }
  }

  function PositiveDecimal(x: real): string
    requires x > 0.0 && x != x.Floor as real
  {
    NatToString(x.Floor) + "." + FractionDigits(x - x.Floor as real, FractionDigitsLimit - 1)
  }

  /** `ToNumber(s)` for the strings this client compares against: the empty
   *  string is 0, a string of decimal digits is its value, anything else is
   *  taken as NaN (None). Whitespace, signs, decimals, exponents and
   *  hexadecimal, which JavaScript also converts, are not modelled. */
  function StringToNumber(s: string): (r: Option<real>)
    ensures s == "" ==> r == Some(0.0)
    ensures r.Some? ==> IsDigits(s)
  {
    if IsDigits(s) then Some(ParseDigits(s) as real) else None
  }
}
