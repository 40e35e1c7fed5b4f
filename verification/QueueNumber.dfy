/** The short handle called across the room: `A-007`, `A-042`, `A-1000`. */
module QueueNumber {
  import opened Decimal

  const QUEUE_PREFIX: string := "A-"
  const QUEUE_DIGITS: nat := 3

  function FormatOrderNumber(sequence: nat): string {
    QUEUE_PREFIX + Numeral(Pad(Digits(sequence), QUEUE_DIGITS))
  }

  /** Two different places in the queue never print alike. */
  lemma FormatInjective(m: nat, n: nat)
    requires FormatOrderNumber(m) == FormatOrderNumber(n)
    ensures m == n
  {
    var a, b := Pad(Digits(m), QUEUE_DIGITS), Pad(Digits(n), QUEUE_DIGITS);
    assert Numeral(a) == FormatOrderNumber(m)[|QUEUE_PREFIX|..];
    assert Numeral(b) == FormatOrderNumber(n)[|QUEUE_PREFIX|..];
    DigitsAreDigits(m);
    DigitsAreDigits(n);
    PadKeepsDigits(Digits(m), QUEUE_DIGITS);
    PadKeepsDigits(Digits(n), QUEUE_DIGITS);
    NumeralInjective(a, b);
    PadKeepsValue(Digits(m), QUEUE_DIGITS);
    PadKeepsValue(Digits(n), QUEUE_DIGITS);
    ValueOfDigits(m);
    ValueOfDigits(n);
  }

  /** A number prints as the letter, a dash and at least three digits that read back as it. */
  lemma FormatReadsBack(n: nat) returns (digits: seq<nat>)
    ensures FormatOrderNumber(n) == "A-" + Numeral(digits)
    ensures |digits| >= 3 && ValueOf(digits) == n && forall i :: 0 <= i < |digits| ==> digits[i] < 10
    ensures |digits| > 3 ==> digits == Digits(n)
  {
    digits := Pad(Digits(n), 3);
    DigitsAreDigits(n);
    PadKeepsDigits(Digits(n), 3);
    PadKeepsValue(Digits(n), 3);
    ValueOfDigits(n);
    PadIsWide(Digits(n), 3);
  }
}
