/** Card numbers: the check digit (Annex B of ISO/IEC 7812-1) and the grouping of digits (secret_form_view.go). */
module Luhn {
  import opened Bytes

  predicate IsDigit(c: char) {
    '0' <= c <= '9'
  }

  predicate AllDigits(s: string) {
    forall i :: 0 <= i < |s| ==> IsDigit(s[i])
  }

  /** A character stands for one byte of the string; the subtraction is on bytes and wraps around. */
  function DigitOf(c: char): (d: int)
    ensures 0 <= d < 256
    ensures IsDigit(c) ==> d == c as int - '0' as int
  {
    (c as int - '0' as int) % 256
  }

  function CharOf(d: nat): char
    requires d < 10
  {
    (d + '0' as int) as char
  }

  /** A digit, doubled and cast out if it stands at an odd distance from where the check digit goes. */
  function Doubled(d: int): int {
    if 2 * d > 9 then 2 * d - 9 else 2 * d
  }

  function Term(number: string, i: nat): int
    requires i < |number|
  {
    if (|number| - i) % 2 == 1 then Doubled(DigitOf(number[i])) else DigitOf(number[i])
  }

  /** The terms from position i on. */
  function SumFrom(number: string, i: nat): int
    requires i <= |number|
    decreases |number| - i
  {
    if i == |number| then 0 else Term(number, i) + SumFrom(number, i + 1)
  }

  /** The check digit that makes the sum a multiple of ten. */
  function CheckDigit(number: string): int {
    (10 - SumFrom(number, 0) % 10) % 10
  }

  lemma {:induction false} SumIsNatural(number: string, i: nat)
    requires i <= |number|
    ensures SumFrom(number, i) >= 0
    decreases |number| - i
  {
    if i < |number| { SumIsNatural(number, i + 1); }
  }

  /** The loop runs from the right; its remainders are of sums that are not negative. */
  method LuhnCheckDigit(number: string) returns (check: int)
    ensures check == CheckDigit(number) && 0 <= check <= 9
    ensures (SumFrom(number, 0) + check) % 10 == 0
  {
    var sum := 0;
    var i := |number| - 1;
    while i >= 0
      invariant -1 <= i < |number| && sum == SumFrom(number, i + 1)
    {
      var d := DigitOf(number[i]);
      if (|number| - i) % 2 == 1 {
        d := d * 2;
        if d > 9 {
          d := d - 9;
        }
      }
      sum := sum + d;
      i := i - 1;
    }
    SumIsNatural(number, 0);
    check := (10 - sum % 10) % 10;
  }

  predicate Valid(pan: string) {
    12 <= |pan| <= 19 && CheckDigit(pan[..|pan| - 1]) == DigitOf(pan[|pan| - 1])
  }

  method LuhnValid(pan: string) returns (ok: bool)
    ensures ok <==> 12 <= |pan| <= 19 && DigitOf(pan[|pan| - 1]) <= 9 && WeightedSum(pan, 0) % 10 == 0
  {
    if |pan| < 12 || |pan| > 19 {
      return false;
    }
    var payload := pan[..|pan| - 1];
    var check := DigitOf(pan[|pan| - 1]);
    var computed := LuhnCheckDigit(payload);
    ValidIsMultipleOfTen(pan);
    return computed == check;
  }

  // ----- the whole number, check digit included -----

  /** The digits that are doubled: every second one, counted from the last. */
  function Weighted(pan: string, i: nat): int
    requires i < |pan|
  {
    if (|pan| - i) % 2 == 0 then Doubled(DigitOf(pan[i])) else DigitOf(pan[i])
  }

  function WeightedSum(pan: string, i: nat): int
    requires i <= |pan|
    decreases |pan| - i
  {
    if i == |pan| then 0 else Weighted(pan, i) + WeightedSum(pan, i + 1)
  }

  lemma {:induction false} PayloadSum(pan: string, i: nat)
    requires i < |pan|
    ensures WeightedSum(pan, i) == SumFrom(pan[..|pan| - 1], i) + DigitOf(pan[|pan| - 1])
    decreases |pan| - i
  {
    if i < |pan| - 1 { PayloadSum(pan, i + 1); }
  }

  lemma ComplementToTen(sum: int, d: int)
    requires 0 <= d <= 9
    ensures (10 - sum % 10) % 10 == d <==> (sum + d) % 10 == 0
  {
    var r := sum % 10;
    assert (sum + d) % 10 == (r + d) % 10;
  }

  /** A number is valid exactly when its weighted digits sum up to a multiple of ten. */
  lemma ValidIsMultipleOfTen(pan: string)
    requires pan != []
    ensures Valid(pan) <==> 12 <= |pan| <= 19 && DigitOf(pan[|pan| - 1]) <= 9 && WeightedSum(pan, 0) % 10 == 0
  {
    PayloadSum(pan, 0);
    if DigitOf(pan[|pan| - 1]) <= 9 {
      ComplementToTen(SumFrom(pan[..|pan| - 1], 0), DigitOf(pan[|pan| - 1]));
    }
  }

  /** Appending the check digit to 11 to 18 digits makes a valid number. */
  lemma AppendedIsValid(number: string)
    requires AllDigits(number) && 11 <= |number| <= 18
    ensures 0 <= CheckDigit(number) <= 9
    ensures Valid(number + [CharOf(CheckDigit(number))])
  {
    var pan := number + [CharOf(CheckDigit(number))];
    assert pan[..|pan| - 1] == number;
  }

  /** No other check digit would do. */
  lemma OnlyOneCheckDigit(number: string, c: char)
    requires AllDigits(number) && IsDigit(c) && Valid(number + [c])
    ensures c == CharOf(CheckDigit(number))
  {
    assert (number + [c])[..|number|] == number;
  }

  // ----- which errors it detects -----

  lemma {:induction false} SumAfterChange(pan: string, k: nat, c: char, i: nat)
    requires k < |pan| && i <= |pan|
    ensures WeightedSum(pan[k := c], i)
         == WeightedSum(pan, i) + if i <= k then Weighted(pan[k := c], k) - Weighted(pan, k) else 0
    decreases |pan| - i
  {
    if i < |pan| { SumAfterChange(pan, k, c, i + 1); }
  }

  lemma DoubledIsInjective(d: int, e: int)
    requires 0 <= d <= 9 && 0 <= e <= 9 && (Doubled(d) - Doubled(e)) % 10 == 0
    ensures d == e
  {
  }

  lemma TensStay(sum: int, delta: int)
    requires sum % 10 == 0
    ensures (sum + delta) % 10 == 0 <==> delta % 10 == 0
  {
  }

  lemma ChangeGain(pan: string, k: nat, c: char)
    requires AllDigits(pan) && k < |pan| && IsDigit(c) && c != pan[k]
    ensures (Weighted(pan[k := c], k) - Weighted(pan, k)) % 10 != 0
  {
    var d, e := DigitOf(pan[k]), DigitOf(c);
    if (|pan| - k) % 2 == 0 && (Doubled(e) - Doubled(d)) % 10 == 0 {
      DoubledIsInjective(e, d);
    }
  }

  /** A single wrong digit always shows. */
  lemma SingleChangeIsDetected(pan: string, k: nat, c: char)
    requires AllDigits(pan) && Valid(pan) && k < |pan| && IsDigit(c) && c != pan[k]
    ensures !Valid(pan[k := c])
  {
    SumAfterChange(pan, k, c, 0);
    ValidIsMultipleOfTen(pan);
    ValidIsMultipleOfTen(pan[k := c]);
    ChangeGain(pan, k, c);
    TensStay(WeightedSum(pan, 0), Weighted(pan[k := c], k) - Weighted(pan, k));
  }

  function Swapped(pan: string, k: nat): string
    requires k + 1 < |pan|
  {
    pan[k := pan[k + 1]][k + 1 := pan[k]]
  }

  /** What doubling a digit adds to it. */
  function Gain(d: int): int {
    Doubled(d) - d
  }

  lemma SumAfterSwap(pan: string, k: nat)
    requires k + 1 < |pan|
    ensures var gain := Gain(DigitOf(pan[k + 1])) - Gain(DigitOf(pan[k]));
            WeightedSum(Swapped(pan, k), 0) == WeightedSum(pan, 0) + if (|pan| - k) % 2 == 0 then gain else -gain
  {
    var half, full := pan[k := pan[k + 1]], Swapped(pan, k);
    SumAfterChange(pan, k, pan[k + 1], 0);
    SumAfterChange(half, k + 1, pan[k], 0);
    NeighboursAlternate(|pan|, k);
    assert Weighted(half, k + 1) == Weighted(pan, k + 1);
  }

  lemma NeighboursAlternate(n: int, k: int)
    ensures (n - k) % 2 == 0 <==> (n - (k + 1)) % 2 != 0
  {
  }

  /** What doubling adds differs from digit to digit, but for 0 and 9. */
  lemma GainsDiffer(d: int, e: int)
    requires 0 <= d <= 9 && 0 <= e <= 9
    ensures (Gain(e) - Gain(d)) % 10 == 0 <==> d == e || (d == 0 && e == 9) || (d == 9 && e == 0)
    ensures (Gain(e) - Gain(d)) % 10 == 0 <==> (Gain(d) - Gain(e)) % 10 == 0
  {
  }

  /** Two neighbouring digits that changed places show, unless they are equal or are 0 and 9. */
  lemma SwapIsDetected(pan: string, k: nat)
    requires AllDigits(pan) && Valid(pan) && k + 1 < |pan|
    ensures var a, b := pan[k], pan[k + 1];
            Valid(Swapped(pan, k)) <==> a == b || (a == '0' && b == '9') || (a == '9' && b == '0')
  {
    var d, e := DigitOf(pan[k]), DigitOf(pan[k + 1]);
    SumAfterSwap(pan, k);
    ValidIsMultipleOfTen(pan);
    ValidIsMultipleOfTen(Swapped(pan, k));
    GainsDiffer(d, e);
    TensStay(WeightedSum(pan, 0), Gain(e) - Gain(d));
    TensStay(WeightedSum(pan, 0), Gain(d) - Gain(e));
  }

  // ----- digits in and out -----

  function OnlyDigits(s: string): (digits: string)
    ensures AllDigits(digits) && |digits| <= |s|
  {
    if s == [] then [] else (if IsDigit(s[0]) then [s[0]] else []) + OnlyDigits(s[1..])
  }

  method ExtractDigits(s: string) returns (digits: string)
    ensures digits == OnlyDigits(s)
  {
    digits := [];
    var i := 0;
    while i < |s|
      invariant i <= |s| && digits + OnlyDigits(s[i..]) == OnlyDigits(s)
    {
      assert s[i..][1..] == s[i + 1..];
      if IsDigit(s[i]) {
        AppendAssociates(digits, [s[i]], OnlyDigits(s[i + 1..]));
        digits := digits + [s[i]];
      }
      i := i + 1;
    }
  }

  /** The first 16 digits; what is typed beyond them is dropped. */
  function CardDigits(s: string): string {
    var digits := OnlyDigits(s);
    if |digits| > 16 then digits[..16] else digits
  }

  /** The digits from position i on, with a space before every group of four but the first. */
  function Grouped(digits: string, i: nat): string
    requires i <= |digits|
    decreases |digits| - i
  {
    if i == |digits| then []
    else Lead(i) + [digits[i]] + Grouped(digits, i + 1)
  }

  function Lead(i: nat): string {
    if i > 0 && i % 4 == 0 then " " else ""
  }

  lemma NextGrouped(b: string, digits: string, i: nat)
    requires i < |digits|
    ensures b + Grouped(digits, i) == b + Lead(i) + [digits[i]] + Grouped(digits, i + 1)
    ensures b + "" == b
  {
    AppendAssociates(b, Lead(i) + [digits[i]], Grouped(digits, i + 1));
    AppendAssociates(b, Lead(i), [digits[i]]);
  }

  method FormatPAN(s: string) returns (b: string)
    ensures b == Grouped(CardDigits(s), 0)
  {
    var digits := ExtractDigits(s);
    if |digits| > 16 {
      digits := digits[..16];
    }
    b := [];
    var i := 0;
    while i < |digits|
      invariant i <= |digits| && b + Grouped(digits, i) == Grouped(digits, 0)
    {
      NextGrouped(b, digits, i);
      if i > 0 && i % 4 == 0 {
        b := b + " ";
      }
      b := b + [digits[i]];
      i := i + 1;
    }
  }

  lemma {:induction false} GroupsHoldTheDigits(digits: string, i: nat)
    requires AllDigits(digits) && i <= |digits|
    ensures OnlyDigits(Grouped(digits, i)) == digits[i..]
    decreases |digits| - i
  {
    if i < |digits| {
      var rest := Grouped(digits, i + 1);
      GroupsHoldTheDigits(digits, i + 1);
      var g := [digits[i]] + rest;
      assert g[1..] == rest;
      if i > 0 && i % 4 == 0 {
        assert Grouped(digits, i)[0] == ' ' && Grouped(digits, i)[1..] == g;
      } else {
        assert Grouped(digits, i) == g;
      }
    }
  }

  /** Formatting loses none of the first 16 digits, and formatting again changes nothing. */
  lemma FormattingKeepsDigits(s: string)
    ensures OnlyDigits(Grouped(CardDigits(s), 0)) == CardDigits(s)
    ensures CardDigits(Grouped(CardDigits(s), 0)) == CardDigits(s)
  {
    GroupsHoldTheDigits(CardDigits(s), 0);
  }

  /** Where the digit at i, or the space before it, stands in the formatted number. */
  function PlaceOf(i: nat): nat {
    i + if i == 0 then 0 else (i - 1) / 4
  }

  lemma {:induction false} SpacesFrom(digits: string, i: nat, j: nat)
    requires AllDigits(digits) && i <= |digits| && j < |Grouped(digits, i)|
    ensures Grouped(digits, i)[j] == ' ' <==> (PlaceOf(i) + j) % 5 == 4
    decreases |digits| - i
  {
    if i < |digits| {
      var lead := if i > 0 && i % 4 == 0 then 2 else 1;
      assert PlaceOf(i + 1) == PlaceOf(i) + lead;
      if j >= lead {
        SpacesFrom(digits, i + 1, j - lead);
      }
    }
  }

  /** Every fifth character, and no other, is a space. */
  lemma SpacesEveryFive(s: string, j: nat)
    requires j < |Grouped(CardDigits(s), 0)|
    ensures Grouped(CardDigits(s), 0)[j] == ' ' <==> j % 5 == 4
  {
    SpacesFrom(CardDigits(s), 0, j);
  }
}
