/** The text sprintf writes for "%0.2f" when the value is a whole number that
    a float holds exactly: its decimal digits (no sign, no padding, no
    leading zero), then ".00". Characters are ASCII bytes. */
module Format {

  const ZERO: bv8 := 0x30
  const DOT: bv8 := 0x2E

  predicate IsDigit(c: bv8)
  {
    ZERO <= c <= 0x39
  }

  function Digit(d: int): (c: bv8)
    requires 0 <= d < 10
    ensures IsDigit(c) && (c - ZERO) as int == d
  {
    (0x30 + d) as bv8
  }

  /** The shortest decimal numeral of `n`. */
  function Decimal(n: nat): (s: seq<bv8>)
    ensures 1 <= |s|
    ensures forall k :: 0 <= k < |s| ==> IsDigit(s[k])
    ensures |s| > 1 ==> s[0] != ZERO
  {
    if n < 10 then [Digit(n)] else Decimal(n / 10) + [Digit(n % 10)]
  }

  /** Reads a string of digits back as a number. */
  function ParseDecimal(s: seq<bv8>): nat
    requires forall k :: 0 <= k < |s| ==> IsDigit(s[k])
  {
    if s == [] then 0 else 10 * ParseDecimal(s[..|s| - 1]) + (s[|s| - 1] - ZERO) as int
  }

  lemma {:induction false} DecimalRoundTrip(n: nat)
    ensures ParseDecimal(Decimal(n)) == n
  {
    if n >= 10 {
      DecimalRoundTrip(n / 10);
      var s := Decimal(n);
      assert s[..|s| - 1] == Decimal(n / 10);
    }
  }

  /** A number below 10^k, for k >= 1, takes at most k digits. */
  lemma {:induction false} DecimalLength(n: nat, k: nat)
    requires 1 <= k && n < Power10(k)
    ensures |Decimal(n)| <= k
  {
    if n >= 10 {
      assert k >= 2 by {
        assert k != 1;
      }
      DecimalLength(n / 10, k - 1);
    }
  }

  function Power10(k: nat): nat
  {
    if k == 0 then 1 else 10 * Power10(k - 1)
  }

  /** "%0.2f" of the whole number n. */
  function FixedTwo(n: nat): seq<bv8>
  {
    Decimal(n) + [DOT, ZERO, ZERO]
  }
}
