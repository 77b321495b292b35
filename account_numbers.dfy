/**
 * The account number that every new account receives by default:
 * floor(10^11 + U * 9 * 10^11) written in decimal, for a uniform draw U in [0, 1).
 * The draw is taken here as the integer offset it yields, so the number is 10^11 + k.
 */
module AccountNumbers {

  /** The smallest account number, 10^11. */
  const Low: nat := 100000000000

  /** The random draw, as the whole offset it adds to Low (there are 9 * 10^11 of them). */
  type Draw = k: int | 0 <= k < 900000000000

  function Pow10(k: nat): (r: nat)
    ensures r >= 1
  {
    if k == 0 then 1 else 10 * Pow10(k - 1)
  }

  predicate IsDigit(c: char) {
    '0' <= c <= '9'
  }

  predicate AllDigits(s: string) {
    forall i | 0 <= i < |s| :: IsDigit(s[i])
  }

  /** The test `^\d{12}$` that the transfer route applies to a destination account number. */
  predicate IsTwelveDigits(s: string) {
    |s| == 12 && AllDigits(s)
  }

  function DigitChar(d: nat): (c: char)
    requires d < 10
    ensures IsDigit(c)
  {
    (48 + d) as char
  }

  function DigitValue(c: char): (d: nat)
    requires IsDigit(c)
    ensures d < 10 && DigitChar(d) == c
  {
    c as int - 48
  }

  /** The decimal text of a non-negative integer, as Number.prototype.toString writes it. */
  function Decimal(n: nat): (s: string)
    ensures 1 <= |s| && AllDigits(s)
  {
    if n < 10 then [DigitChar(n)] else Decimal(n / 10) + [DigitChar(n % 10)]
  }

  /** The value a string of decimal digits denotes. */
  function ValueOf(s: string): (n: nat)
    requires AllDigits(s)
  {
    if s == [] then 0 else 10 * ValueOf(s[..|s| - 1]) + DigitValue(s[|s| - 1])
  }

  lemma {:induction false} ValueOfDecimal(n: nat)
    ensures ValueOf(Decimal(n)) == n
  {
    if n >= 10 {
      var s := Decimal(n);
      assert s[..|s| - 1] == Decimal(n / 10);
      ValueOfDecimal(n / 10);
    }
  }

  /** A number with exactly k digits has a decimal text of length k. */
  lemma {:induction false} DecimalLength(n: nat, k: nat)
    requires 1 <= k && Pow10(k - 1) <= n < Pow10(k)
    ensures |Decimal(n)| == k
  {
    if k > 1 {
      assert Pow10(k - 1) == 10 * Pow10(k - 2);
      assert Pow10(k - 2) <= n / 10 < Pow10(k - 1);
      DecimalLength(n / 10, k - 1);
    }
  }

  /** Decimal never writes a leading zero for a positive number. */
  lemma {:induction false} LeadingDigitNonZero(n: nat)
    requires n >= 1
    ensures Decimal(n)[0] != '0'
  {
    if n >= 10 {
      LeadingDigitNonZero(n / 10);
      assert Decimal(n)[0] == Decimal(n / 10)[0];
    }
  }

  lemma PowersOfTen()
    ensures Pow10(11) == Low && Pow10(12) == 10 * Low
  {
  }

  /**
   * The generated account number: its text has exactly twelve digits, the first
   * of them nonzero, and it denotes Low + k.
   */
  function Generate(k: Draw): (s: string)
    ensures IsTwelveDigits(s) && s[0] != '0'
    ensures ValueOf(s) == Low + k
  {
    PowersOfTen();
    DecimalLength(Low + k, 12);
    LeadingDigitNonZero(Low + k);
    ValueOfDecimal(Low + k);
    Decimal(Low + k)
  }

  /** Two draws give the same account number only if they are the same draw. */
  lemma GenerateInjective(j: Draw, k: Draw)
    ensures Generate(j) == Generate(k) ==> j == k
  {
  }
}
