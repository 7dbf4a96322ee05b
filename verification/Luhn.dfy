/** The Luhn check of card numbers (ISO/IEC 7812-1, Annex B), on the bytes of the text. */
module Luhn {
  type Byte = b: int | 0 <= b < 256

  const ZERO: int := 48

  /** int(pan[i] - '0'): the subtraction wraps around in a byte. */
  function Digit(b: Byte): int {
    if b >= ZERO then b - ZERO else b - ZERO + 256
  }

  predicate IsDigit(b: Byte) {
    ZERO <= b <= ZERO + 9
  }

  predicate AllDigits(pan: seq<Byte>) {
    forall i :: 0 <= i < |pan| ==> IsDigit(pan[i])
  }

  /** A digit, doubled or not, with nine cast out. */
  function Weigh(d: int, doubled: bool): int {
    if !doubled then d else if d * 2 > 9 then d * 2 - 9 else d * 2
  }

  /** The definition: from the right, every second digit is doubled. */
  function Checksum(pan: seq<Byte>, doubled: bool): int {
    if |pan| == 0 then 0
    else Weigh(Digit(pan[|pan| - 1]), doubled) + Checksum(pan[..|pan| - 1], !doubled)
  }

  /** The checksum up to the check digit. */
  predicate Valid(pan: seq<Byte>) {
    AllDigits(pan) && Checksum(pan, false) % 10 == 0
  }

  predicate Accepted(pan: seq<Byte>) {
    13 <= |pan| <= 19 && Valid(pan)
  }

  /** The loop goes from the left: n is the length of the whole number. */
  function FromLeft(pan: seq<Byte>, n: nat): int {
    if |pan| == 0 then 0
    else FromLeft(pan[..|pan| - 1], n) + Weigh(Digit(pan[|pan| - 1]), (|pan| - 1) % 2 == n % 2)
  }

  /** Both directions agree, at every length. */
  lemma {:induction false} LeftIsRight(pan: seq<Byte>, n: nat)
    ensures FromLeft(pan, n) == Checksum(pan, (|pan| + 1) % 2 == n % 2)
  {
    if |pan| > 0 {
      LeftIsRight(pan[..|pan| - 1], n);
    }
  }

  /** LuhnCheck, with its early return. */
  method LuhnCheck(pan: seq<Byte>) returns (ok: bool)
    ensures ok <==> Accepted(pan)
  {
    if |pan| < 13 || |pan| > 19 {
      return false;
    }
    var sum := 0;
    var parity := |pan| % 2;
    for i := 0 to |pan|
      invariant AllDigits(pan[..i])
      invariant sum == FromLeft(pan[..i], |pan|)
    {
      assert pan[..i + 1][..i] == pan[..i];
      var d := Digit(pan[i]);
      if d < 0 || d > 9 {
        return false;
      }
      if i % 2 == parity {
        d := d * 2;
        if d > 9 {
          d := d - 9;
        }
      }
      sum := sum + d;
    }
    assert pan[..|pan|] == pan;
    LeftIsRight(pan, |pan|);
    ok := sum % 10 == 0;
  }

  // ----- what the check detects -----

  /** Whether the digit i of n is doubled, when the last one is as given. */
  predicate DoubledAt(n: nat, i: nat, doubled: bool) {
    if (n - 1 - i) % 2 == 0 then doubled else !doubled
  }

  lemma Alternates(n: nat, i: nat, doubled: bool)
    ensures DoubledAt(n, i + 1, doubled) == !DoubledAt(n, i, doubled)
  {
  }

  /** A changed digit moves the checksum by the difference of its weights. */
  lemma {:induction false} OneDigit(pan: seq<Byte>, i: nat, b: Byte, doubled: bool)
    requires i < |pan|
    ensures Checksum(pan[i := b], doubled) - Checksum(pan, doubled)
         == Weigh(Digit(b), DoubledAt(|pan|, i, doubled)) - Weigh(Digit(pan[i]), DoubledAt(|pan|, i, doubled))
  {
    var front := pan[..|pan| - 1];
    if i == |pan| - 1 {
      assert pan[i := b][..|pan| - 1] == front;
    } else {
      assert pan[i := b][..|pan| - 1] == front[i := b];
      OneDigit(front, i, b, !doubled);
    }
  }

  /** Changing any one digit of an accepted number makes it rejected. */
  lemma OneDigitIsDetected(pan: seq<Byte>, i: nat, b: Byte)
    requires Accepted(pan) && i < |pan| && b != pan[i]
    ensures !Accepted(pan[i := b])
  {
    OneDigit(pan, i, b, false);
    if IsDigit(b) {
      WeightsDiffer(Digit(pan[i]), Digit(b), DoubledAt(|pan|, i, false));
      SmallChange(Checksum(pan, false), Checksum(pan[i := b], false) - Checksum(pan, false));
    } else {
      assert !IsDigit(pan[i := b][i]);
    }
  }

  lemma WeightsDiffer(d: int, e: int, doubled: bool)
    requires 0 <= d <= 9 && 0 <= e <= 9 && d != e
    ensures -9 <= Weigh(e, doubled) - Weigh(d, doubled) <= 9 && Weigh(e, doubled) != Weigh(d, doubled)
  {
  }

  /** Two digits next to each other and exchanged. */
  function Swapped(pan: seq<Byte>, i: nat): seq<Byte>
    requires i + 1 < |pan|
  {
    pan[i := pan[i + 1]][i + 1 := pan[i]]
  }

  predicate SameOrZeroNine(d: int, e: int) {
    d == e || (d == 0 && e == 9) || (d == 9 && e == 0)
  }

  lemma SwapWeights(d: int, e: int, doubled: bool)
    requires 0 <= d <= 9 && 0 <= e <= 9
    ensures var change := Weigh(e, doubled) + Weigh(d, !doubled) - Weigh(d, doubled) - Weigh(e, !doubled);
            -9 <= change <= 9 && (change == 0 <==> SameOrZeroNine(d, e))
  {
  }

  lemma TwoChanges(before: int, once: int, after: int, d: int, e: int, doubled: bool)
    requires 0 <= d <= 9 && 0 <= e <= 9
    requires once - before == Weigh(e, doubled) - Weigh(d, doubled)
    requires after - once == Weigh(d, !doubled) - Weigh(e, !doubled)
    ensures -9 <= after - before <= 9 && (after - before == 0 <==> SameOrZeroNine(d, e))
  {
    SwapWeights(d, e, doubled);
  }

  lemma SwapChange(pan: seq<Byte>, i: nat)
    requires i + 1 < |pan| && AllDigits(pan)
    ensures var change := Checksum(Swapped(pan, i), false) - Checksum(pan, false);
            -9 <= change <= 9 && (change == 0 <==> SameOrZeroNine(Digit(pan[i]), Digit(pan[i + 1])))
  {
    var once := pan[i := pan[i + 1]];
    OneDigit(pan, i, pan[i + 1], false);
    OneDigit(once, i + 1, pan[i], false);
    Alternates(|pan|, i, false);
    TwoChanges(Checksum(pan, false), Checksum(once, false), Checksum(Swapped(pan, i), false),
               Digit(pan[i]), Digit(pan[i + 1]), DoubledAt(|pan|, i, false));
  }

  lemma SmallChange(sum: int, change: int)
    requires sum % 10 == 0 && -9 <= change <= 9
    ensures (sum + change) % 10 == 0 <==> change == 0
  {
  }

  /** Exchanging two adjacent digits of an accepted number is detected unless they are equal, or are 0
      and 9. */
  lemma SwapIsDetectedIff(pan: seq<Byte>, i: nat)
    requires Accepted(pan) && i + 1 < |pan|
    ensures Accepted(Swapped(pan, i)) <==> SameOrZeroNine(Digit(pan[i]), Digit(pan[i + 1]))
  {
    SwapChange(pan, i);
    SwapKeepsDigits(pan, i);
    SmallChange(Checksum(pan, false), Checksum(Swapped(pan, i), false) - Checksum(pan, false));
  }

  lemma SwapKeepsDigits(pan: seq<Byte>, i: nat)
    requires AllDigits(pan) && i + 1 < |pan|
    ensures AllDigits(Swapped(pan, i))
  {
  }

  lemma CheckDigitSum(prefix: seq<Byte>, b: Byte)
    ensures Checksum(prefix + [b], false) == Digit(b) + Checksum(prefix, true)
  {
    assert (prefix + [b])[..|prefix|] == prefix;
  }

  function CheckDigit(prefix: seq<Byte>): Byte {
    ZERO + (10 - Checksum(prefix, true) % 10) % 10
  }

  /** Each prefix of digits has exactly one accepted check digit. */
  lemma CheckDigitIsUnique(prefix: seq<Byte>, b: Byte)
    requires AllDigits(prefix) && 12 <= |prefix| <= 18
    ensures Accepted(prefix + [b]) <==> b == CheckDigit(prefix)
  {
    var pan := prefix + [b];
    CheckDigitSum(prefix, b);
    assert AllDigits(pan) <==> IsDigit(b) by {
      assert pan[|prefix|] == b;
      assert forall i :: 0 <= i < |prefix| ==> pan[i] == prefix[i];
    }
    OnlyOne(Digit(b), Checksum(prefix, true), b);
  }

  lemma OnlyOne(d: int, sum: int, b: Byte)
    requires d == Digit(b)
    ensures IsDigit(b) && (d + sum) % 10 == 0 <==> b == ZERO + (10 - sum % 10) % 10
  {
  }
}
