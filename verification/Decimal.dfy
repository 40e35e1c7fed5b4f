/** Decimal numerals, and why a printed number can be read back. */
module Decimal {

  /** The decimal digits of `n`, most significant first, without leading zeros. */
  function Digits(n: nat): seq<nat> {
    if n < 10 then [n] else Digits(n / 10) + [n % 10]
  }

  function ValueOf(digits: seq<nat>): nat {
    if digits == [] then 0 else 10 * ValueOf(digits[..|digits| - 1]) + digits[|digits| - 1]
  }

  lemma {:induction false} DigitsAreDigits(n: nat)
    ensures |Digits(n)| > 0
    ensures forall i :: 0 <= i < |Digits(n)| ==> Digits(n)[i] < 10
  {
    if n >= 10 {
      DigitsAreDigits(n / 10);
    }
  }

  /** Reading back what was printed. */
  lemma {:induction false} ValueOfDigits(n: nat)
    ensures ValueOf(Digits(n)) == n
  {
    if n < 10 {
      assert [n][..0] == [];
    } else {
      ValueOfDigits(n / 10);
      assert (Digits(n / 10) + [n % 10])[..|Digits(n / 10)|] == Digits(n / 10);
    }
  }

  /** Leading zeros carry no value. */
  lemma {:induction false} LeadingZero(digits: seq<nat>)
    ensures ValueOf([0] + digits) == ValueOf(digits)
  {
    if digits == [] {
      assert ([0] + digits)[..0] == [];
    } else {
      var init := digits[..|digits| - 1];
      LeadingZero(init);
      assert ([0] + digits)[..|digits|] == [0] + init;
    }
  }

  function Pad(digits: seq<nat>, width: nat): seq<nat>
    decreases width - |digits|
  {
    if |digits| >= width then digits else Pad([0] + digits, width)
  }

  lemma {:induction false} PadKeepsValue(digits: seq<nat>, width: nat)
    ensures ValueOf(Pad(digits, width)) == ValueOf(digits)
    decreases width - |digits|
  {
    if |digits| < width {
      PadKeepsValue([0] + digits, width);
      LeadingZero(digits);
    }
  }

  lemma {:induction false} PadKeepsDigits(digits: seq<nat>, width: nat)
    requires forall i :: 0 <= i < |digits| ==> digits[i] < 10
    ensures forall i :: 0 <= i < |Pad(digits, width)| ==> Pad(digits, width)[i] < 10
    decreases width - |digits|
  {
    if |digits| < width {
      PadKeepsDigits([0] + digits, width);
    }
  }

  lemma {:induction false} PadIsWide(digits: seq<nat>, width: nat)
    ensures |Pad(digits, width)| >= width && (|Pad(digits, width)| > width ==> Pad(digits, width) == digits)
    decreases width - |digits|
  {
    if |digits| < width {
      PadIsWide([0] + digits, width);
    }
  }

  function DigitChar(d: nat): char {
    if d < 10 then "0123456789"[d] else '?'
  }

  /** The digits as characters. */
  function Numeral(digits: seq<nat>): string {
    seq(|digits|, i requires 0 <= i < |digits| => DigitChar(digits[i]))
  }

  lemma NumeralInjective(a: seq<nat>, b: seq<nat>)
    requires forall i :: 0 <= i < |a| ==> a[i] < 10
    requires forall i :: 0 <= i < |b| ==> b[i] < 10
    requires Numeral(a) == Numeral(b)
    ensures a == b
  {
    assert |a| == |Numeral(a)| == |Numeral(b)| == |b|;
    forall i | 0 <= i < |a| ensures a[i] == b[i] {
      assert Numeral(a)[i] == Numeral(b)[i];
      assert DigitChar(a[i]) == DigitChar(b[i]);
    }
  }
}
