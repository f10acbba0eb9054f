/** The check digit of Portuguese tax numbers, and which slips of the finger it
    catches. */
module BillsTaxId {
  import opened Wrappers
  import opened Text

  const WEIGHTS: seq<int> := [9, 8, 7, 6, 5, 4, 3, 2]

  predicate IsDigit(c: char) {
    '0' <= c <= '9'
  }

  predicate AllDigits(s: string) {
    forall i :: 0 <= i < |s| ==> IsDigit(s[i])
  }

  function DigitsOf(s: string): (digits: seq<int>)
    requires AllDigits(s)
    ensures |digits| == |s| && AreDigits(digits)
    ensures forall i :: 0 <= i < |s| ==> digits[i] == s[i] as int - '0' as int
  {
    seq(|s|, i requires 0 <= i < |s| => s[i] as int - '0' as int)
  }

  predicate AreDigits(digits: seq<int>) {
    forall i :: 0 <= i < |digits| ==> 0 <= digits[i] <= 9
  }

  function WeightedSum(digits: seq<int>, weights: seq<int>): int
    requires |digits| >= |weights|
  {
    if weights == [] then 0
    else
      var n := |weights| - 1;
      WeightedSum(digits, weights[..n]) + digits[n] * weights[n]
  }

  function CheckDigit(remainder: int): int {
    if remainder == 0 || remainder == 1 then 0 else 11 - remainder
  }

  predicate ChecksOut(digits: seq<int>, weights: seq<int>)
    requires |digits| == |weights| + 1
  {
    CheckDigit(WeightedSum(digits, weights) % 11) == digits[|weights|]
  }

  /** The nine digits of a PT-shaped value: an optional prefix, nothing else. */
  function PtDigits(value: string): (digits: Option<string>)
    ensures digits.Some? ==> |digits.value| == 9 && AllDigits(digits.value)
  {
    var v := Trim(value);
    var w := if |v| >= 2 && (v[0] == 'P' || v[0] == 'p') && (v[1] == 'T' || v[1] == 't') then v[2..] else v;
    if |w| == 9 && AllDigits(w) then Some(w) else None
  }

  /** Right, wrong, or not for us to judge. */
  function PtNifIsValid(value: Option<string>): Option<bool> {
    if value.None? || value.value == "" then None
    else
      match PtDigits(value.value)
      case None => None
      case Some(w) => Some(ChecksOut(DigitsOf(w), WEIGHTS))
  }

  // ---- which numbers are valid ---------------------------------------------

  /** Nothing between two blanks but nine digits, with or without "PT" in front. */
  ghost predicate Spells(value: string, nine: string) {
    && |nine| == 9 && (forall i :: 0 <= i < 9 ==> nine[i] in "0123456789")
    && exists before, prefix, after ::
         IsBlank(before) && IsBlank(after) && prefix in {"", "PT", "Pt", "pT", "pt"} && value == before + (prefix + nine) + after
  }

  /** Weighted by 9 down to 2, with the ninth digit as it is, a valid number is a
      multiple of eleven, except that a remainder of ten shows as the digit 0. */
  ghost predicate IsGoodNif(nine: string) {
    && |nine| == 9
    && var d := seq(9, i requires 0 <= i < 9 => nine[i] as int - '0' as int);
       var sum := 9 * d[0] + 8 * d[1] + 7 * d[2] + 6 * d[3] + 5 * d[4] + 4 * d[5] + 3 * d[6] + 2 * d[7];
       (sum + d[8]) % 11 == 0 || (d[8] == 0 && sum % 11 == 1)
  }

  /** A number shaped like a Portuguese one whose check digit is wrong. */
  ghost predicate IsBadNif(value: Option<string>) {
    value.Some? && exists nine :: Spells(value.value, nine) && !IsGoodNif(nine)
  }

  lemma DigitChars(c: char)
    ensures IsDigit(c) <==> c in "0123456789"
  {
    var digits := "0123456789";
    assert forall i :: 0 <= i < 10 ==> digits[i] as int == '0' as int + i;
    if IsDigit(c) { assert digits[c as int - '0' as int] == c; }
  }

  lemma SpelledIsRead(value: string, nine: string)
    requires Spells(value, nine)
    ensures value != "" && PtDigits(value) == Some(nine)
  {
    var before, prefix, after :| IsBlank(before) && IsBlank(after) && prefix in {"", "PT", "Pt", "pT", "pt"}
      && value == before + (prefix + nine) + after;
    forall i | 0 <= i < 9 ensures IsDigit(nine[i]) && !IsSpace(nine[i]) { DigitChars(nine[i]); }
    var v := prefix + nine;
    assert v[|v| - 1] == nine[8] && (prefix == "" ==> v == nine) && (prefix != "" ==> |v| == 11 && v[2..] == nine);
    TrimOf(before, v, after);
  }

  lemma SpellsFrom(before: string, prefix: string, nine: string, after: string)
    requires |nine| == 9 && AllDigits(nine)
    requires IsBlank(before) && IsBlank(after) && prefix in {"", "PT", "Pt", "pT", "pt"}
    ensures Spells(before + (prefix + nine) + after, nine)
  {
    hide IsBlank;
    forall i | 0 <= i < 9 ensures nine[i] in "0123456789" { DigitChars(nine[i]); }
  }

  lemma PrefixLetters(a: char, b: char)
    requires (a == 'P' || a == 'p') && (b == 'T' || b == 't')
    ensures [a, b] in {"", "PT", "Pt", "pT", "pt"}
  {
    assert [a, b] == "PT" || [a, b] == "Pt" || [a, b] == "pT" || [a, b] == "pt";
  }

  lemma CutInto(value: string, i: nat, k: nat, j: nat)
    requires i <= k <= j <= |value|
    ensures value == value[..i] + (value[i..k] + value[k..j]) + value[j..]
  {
  }

  lemma ReadIsSpelled(value: string)
    requires PtDigits(value).Some?
    ensures Spells(value, PtDigits(value).value)
  {
    hide Trim, IsBlank, Spells, IsTrimmed;
    var nine := PtDigits(value).value;
    var i, j := TrimLeaves(value);
    var v := value[i..j];
    if |v| >= 2 && (v[0] == 'P' || v[0] == 'p') && (v[1] == 'T' || v[1] == 't') {
      PrefixLetters(v[0], v[1]);
      assert value[i..i + 2] == [v[0], v[1]] && value[i + 2..j] == v[2..] == nine;
      CutInto(value, i, i + 2, j);
      SpellsFrom(value[..i], value[i..i + 2], nine, value[j..]);
    } else {
      assert value[i..i] == "" && value[i..j] == nine;
      CutInto(value, i, i, j);
      SpellsFrom(value[..i], value[i..i], nine, value[j..]);
    }
  }

  lemma GoodByHand(nine: string)
    requires |nine| == 9 && AllDigits(nine)
    ensures ChecksOut(DigitsOf(nine), WEIGHTS) <==> IsGoodNif(nine)
  {
    hide WeightedSum;
    var d := DigitsOf(nine);
    SumByHand(d);
    RemainderLaw(WeightedSum(d, WEIGHTS), d[8]);
  }

  lemma RemainderLaw(sum: int, digit: int)
    requires 0 <= digit <= 9
    ensures CheckDigit(sum % 11) == digit <==> (sum + digit) % 11 == 0 || (digit == 0 && sum % 11 == 1)
  {
    var r, q := sum % 11, sum / 11;
    assert sum + digit == 11 * q + (r + digit);
    ModShift(r + digit, q);
    if r == 0 {} else if r == 1 {} else if r == 2 {} else if r == 3 {} else if r == 4 {} else if r == 5 {}
    else if r == 6 {} else if r == 7 {} else if r == 8 {} else if r == 9 {} else { assert r == 10; }
  }

  /** Main result: the answer is "wrong" exactly for nine digits with a wrong check
      digit, "right" exactly for nine digits with the right one, and nothing is said
      about anything else. */
  lemma NifLaw(value: Option<string>)
    ensures PtNifIsValid(value).None? <==> value.None? || !exists nine :: Spells(value.value, nine)
    ensures value.Some? ==> forall nine :: Spells(value.value, nine) ==> PtNifIsValid(value) == Some(IsGoodNif(nine))
    ensures PtNifIsValid(value) == Some(false) <==> IsBadNif(value)
  {
    hide Spells, IsGoodNif, PtDigits, ChecksOut;
    if value.Some? {
      forall nine | Spells(value.value, nine) ensures PtNifIsValid(value) == Some(IsGoodNif(nine)) {
        SpelledIsRead(value.value, nine);
        GoodByHand(nine);
      }
      if PtDigits(value.value).Some? { ReadIsSpelled(value.value); }
    }
  }

  // ---- what the check digit catches ----------------------------------------

  /** No weight is lost modulo 11 and no two are alike. */
  ghost predicate GoodWeights(weights: seq<int>) {
    && (forall i :: 0 <= i < |weights| ==> weights[i] % 11 != 0)
    && (forall i, j :: 0 <= i < j < |weights| ==> (weights[i] - weights[j]) % 11 != 0)
  }

  lemma ModProduct(w: int, x: int)
    ensures (w * x) % 11 == ((w % 11) * x) % 11
  {
    var q := w / 11;
    assert w * x == (w % 11) * x + 11 * (q * x) by {
      assert w == 11 * q + w % 11;
    }
    ModShift((w % 11) * x, q * x);
  }

  lemma ModShift(a: int, k: int)
    ensures (a + 11 * k) % 11 == a % 11
  {
  }

  /** Eleven is prime: a weight that is not a multiple of it keeps any digit
      difference visible. */
  lemma DifferenceShows(w: int, x: int)
    requires w % 11 != 0 && -9 <= x <= 9 && x != 0
    ensures (w * x) % 11 != 0
  {
    ModProduct(w, x);
    var r := w % 11;
    if r == 1 {} else if r == 2 {} else if r == 3 {} else if r == 4 {} else if r == 5 {}
    else if r == 6 {} else if r == 7 {} else if r == 8 {} else if r == 9 {} else { assert r == 10; }
  }

  lemma {:induction false} SumIgnores(d: seq<int>, e: seq<int>, weights: seq<int>)
    requires |d| >= |weights| && |e| >= |weights| && forall i :: 0 <= i < |weights| ==> d[i] == e[i]
    ensures WeightedSum(d, weights) == WeightedSum(e, weights)
  {
    if weights != [] { SumIgnores(d, e, weights[..|weights| - 1]); }
  }

  lemma {:induction false} SumOneChange(d: seq<int>, e: seq<int>, weights: seq<int>, k: nat)
    requires |d| >= |weights| && |e| >= |weights| && k < |weights|
    requires forall i :: 0 <= i < |weights| && i != k ==> d[i] == e[i]
    ensures WeightedSum(d, weights) - WeightedSum(e, weights) == weights[k] * (d[k] - e[k])
  {
    var n := |weights| - 1;
    if k == n {
      SumIgnores(d, e, weights[..n]);
    } else {
      SumOneChange(d, e, weights[..n], k);
    }
  }

  lemma {:induction false} SumSwap(d: seq<int>, e: seq<int>, weights: seq<int>, j: nat, k: nat)
    requires |d| >= |weights| && |e| >= |weights| && j < k < |weights|
    requires d[j] == e[k] && d[k] == e[j]
    requires forall i :: 0 <= i < |weights| && i != j && i != k ==> d[i] == e[i]
    ensures WeightedSum(d, weights) - WeightedSum(e, weights) == (weights[j] - weights[k]) * (d[j] - d[k])
  {
    var n := |weights| - 1;
    if k == n {
      SumOneChange(d, e, weights[..n], j);
      assert weights[j] * (d[j] - d[k]) + d[k] * weights[k] - d[j] * weights[k] == (weights[j] - weights[k]) * (d[j] - d[k]);
    } else {
      SumSwap(d, e, weights[..n], j, k);
    }
  }

  lemma SameResidue(a: int, b: int)
    requires a % 11 == b % 11
    ensures (a - b) % 11 == 0
  {
  }

  /** The only way two numbers with different sums share a check digit. */
  ghost predicate Blind(d: seq<int>, e: seq<int>, weights: seq<int>)
    requires |d| == |e| == |weights| + 1
  {
    && d[|weights|] == e[|weights|] == 0
    && {WeightedSum(d, weights) % 11, WeightedSum(e, weights) % 11} == {0, 1}
  }

  lemma DifferentSums(d: seq<int>, e: seq<int>, weights: seq<int>)
    requires |d| == |e| == |weights| + 1 && ChecksOut(d, weights) && ChecksOut(e, weights)
    requires d[|weights|] == e[|weights|]
    requires (WeightedSum(d, weights) - WeightedSum(e, weights)) % 11 != 0
    ensures Blind(d, e, weights)
  {
    var r, s := WeightedSum(d, weights) % 11, WeightedSum(e, weights) % 11;
    if r == s { SameResidue(WeightedSum(d, weights), WeightedSum(e, weights)); }
  }

  /** One mistyped digit goes unnoticed only when both numbers end in 0 and their
      weighted remainders are 0 and 1. */
  lemma OneWrongDigit(d: seq<int>, e: seq<int>, weights: seq<int>, k: nat)
    requires GoodWeights(weights) && |d| == |e| == |weights| + 1 && AreDigits(d) && AreDigits(e)
    requires k <= |weights| && d[k] != e[k] && forall i :: 0 <= i <= |weights| && i != k ==> d[i] == e[i]
    ensures ChecksOut(d, weights) && ChecksOut(e, weights) ==> k < |weights| && Blind(d, e, weights)
  {
    if ChecksOut(d, weights) && ChecksOut(e, weights) {
      if k == |weights| {
        SumIgnores(d, e, weights);
        assert false;
      } else {
        SumOneChange(d, e, weights, k);
        DifferenceShows(weights[k], d[k] - e[k]);
        DifferentSums(d, e, weights);
      }
    }
  }

  /** Swapping two of the weighted digits goes unnoticed only in the same case. */
  lemma SwappedDigits(d: seq<int>, e: seq<int>, weights: seq<int>, j: nat, k: nat)
    requires GoodWeights(weights) && |d| == |e| == |weights| + 1 && AreDigits(d) && AreDigits(e)
    requires j < k < |weights| && d[j] == e[k] && d[k] == e[j] && d[j] != d[k]
    requires forall i :: 0 <= i <= |weights| && i != j && i != k ==> d[i] == e[i]
    ensures ChecksOut(d, weights) && ChecksOut(e, weights) ==> Blind(d, e, weights)
  {
    if ChecksOut(d, weights) && ChecksOut(e, weights) {
      SumSwap(d, e, weights, j, k);
      DifferenceShows(weights[j] - weights[k], d[j] - d[k]);
      DifferentSums(d, e, weights);
    }
  }

  /** The published weights are good, and the blind spot is real: the first two
      numbers are both valid and differ in one digit, the last two differ in one
      digit and only one of them is. */
  lemma PtWeights()
    ensures GoodWeights(WEIGHTS)
    ensures ChecksOut([0, 0, 0, 0, 0, 0, 0, 0, 0], WEIGHTS) && ChecksOut([0, 0, 0, 0, 0, 3, 0, 0, 0], WEIGHTS)
    ensures ChecksOut([5, 0, 2, 6, 6, 7, 5, 8, 3], WEIGHTS) && !ChecksOut([5, 0, 2, 2, 6, 7, 5, 8, 3], WEIGHTS)
  {
    hide WeightedSum;
    SumByHand([0, 0, 0, 0, 0, 0, 0, 0, 0]);
    SumByHand([0, 0, 0, 0, 0, 3, 0, 0, 0]);
    SumByHand([5, 0, 2, 6, 6, 7, 5, 8, 3]);
    SumByHand([5, 0, 2, 2, 6, 7, 5, 8, 3]);
  }

  lemma SumStep(d: seq<int>, weights: seq<int>, n: nat)
    requires n < |weights| <= |d|
    ensures WeightedSum(d, weights[..n + 1]) == WeightedSum(d, weights[..n]) + d[n] * weights[n]
    ensures WeightedSum(d, weights[..0]) == 0
  {
    assert weights[..n + 1][..n] == weights[..n];
  }

  lemma SumByHand(d: seq<int>)
    requires |d| == 9
    ensures WeightedSum(d, WEIGHTS) == d[0] * 9 + d[1] * 8 + d[2] * 7 + d[3] * 6 + d[4] * 5 + d[5] * 4 + d[6] * 3 + d[7] * 2
  {
    hide WeightedSum;
    SumStep(d, WEIGHTS, 0);
    SumStep(d, WEIGHTS, 1);
    SumStep(d, WEIGHTS, 2);
    SumStep(d, WEIGHTS, 3);
    SumStep(d, WEIGHTS, 4);
    SumStep(d, WEIGHTS, 5);
    SumStep(d, WEIGHTS, 6);
    SumStep(d, WEIGHTS, 7);
    assert WEIGHTS[..8] == WEIGHTS;
  }
}
