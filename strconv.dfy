/**
 * Go's `strconv.ParseInt(s, 0, 64)` on the strings the parser hands it: the
 * literal of an INT token, a non-empty run of decimal digits. With base 0 a
 * leading `0` makes the rest an octal number; the result must fit a signed
 * 64-bit integer.
 */
module Strconv {
  import opened Wrappers
  import opened Token

  const MinInt64: int := -0x8000_0000_0000_0000
  const MaxInt64: int := 0x7FFF_FFFF_FFFF_FFFF

  type Int64 = x: int | MinInt64 <= x <= MaxInt64

  function DigitValue(c: char): nat
    requires IsDigit(c)
  {
    c as int - '0' as int
  }

  /** Every character is a digit of the given base. */
  predicate DigitsBelow(s: string, base: nat) {
    forall i | 0 <= i < |s| :: IsDigit(s[i]) && DigitValue(s[i]) < base
  }

  /** The number the digits spell in the given base, most significant first. */
  function Value(s: string, base: nat): nat
    requires IsDigits(s)
  {
    if s == [] then 0 else Value(s[..|s| - 1], base) * base + DigitValue(s[|s| - 1])
  }

  /** `None` stands for the error `ParseInt` returns: a digit that is not
    * octal after a leading `0`, or a value above the 64-bit maximum. */
  function ParseInt(s: string): (r: Option<Int64>)
    requires |s| > 0 && IsDigits(s)
    ensures r.Some? ==> 0 <= r.value
  {
    var (digits, base) := if s[0] == '0' then (s[1..], 8) else (s, 10);
    if !DigitsBelow(digits, base) then None
    else
      var v := Value(digits, base);
      if v <= MaxInt64 then Some(v) else None
  }

  /** The decimal text of `n`, as `%d` prints it. */
  function Decimal(n: nat): (r: string)
    ensures |r| > 0 && IsDigits(r)
  {
    var last := [('0' as int + n % 10) as char];
    if n < 10 then last else Decimal(n / 10) + last
  }

  lemma {:induction false} DecimalValue(n: nat)
    ensures Value(Decimal(n), 10) == n
  {
    var last := [('0' as int + n % 10) as char];
    if n >= 10 {
      DecimalValue(n / 10);
      var d := Decimal(n / 10) + last;
      assert d[..|d| - 1] == Decimal(n / 10);
    }
  }

  lemma {:induction false} DecimalLeadingDigit(n: nat)
    requires n > 0
    ensures Decimal(n)[0] != '0'
  {
    if n >= 10 {
      DecimalLeadingDigit(n / 10);
    }
  }

  /** `ParseInt` inverts `%d` on every value that fits 64 bits and fails on
    * every larger one. */
  lemma DecimalRoundTrip(n: nat)
    ensures ParseInt(Decimal(n)) == if n <= MaxInt64 then Some(n) else None
  {
    DecimalValue(n);
    if n > 0 {
      DecimalLeadingDigit(n);
    } else {
      assert Decimal(n) == "0";
    }
  }

  /** With base 0 a leading zero means octal: `010` is eight and `08` is
    * not a number at all. */
  lemma LeadingZeroIsOctal()
    ensures ParseInt("010") == Some(8)
    ensures ParseInt("08") == None
    ensures ParseInt("0") == Some(0)
  {
    assert "010"[1..] == "10";
    assert Value("10", 8) == 8 by {
      assert "10"[..1] == "1";
      assert "1"[..0] == "";
    }
    assert "08"[1..] == "8";
    assert "0"[1..] == "";
  }
}
