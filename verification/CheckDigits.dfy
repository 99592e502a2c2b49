/** Check digits: the Luhn key of a SIRET and the numeric key of a French VAT number.
  * Luhn is the formula of Annex B of ISO/IEC 7812-1. */
module CheckDigits {

  type Digit = d: int | 0 <= d < 10

  /** A digit at an odd rank from the right is doubled, less nine beyond nine. */
  function Weighed(d: Digit, rank: nat): Digit {
    if rank % 2 == 0 then d
    else if 2 * d > 9 then 2 * d - 9
    else 2 * d
  }

  /** The weighed sum, the last digit at rank zero. */
  function LuhnSum(digits: seq<Digit>): nat {
    if digits == [] then 0
    else Weighed(digits[0], |digits| - 1) + LuhnSum(digits[1..])
  }

  predicate Luhn(digits: seq<Digit>) { LuhnSum(digits) % 10 == 0 }

  /** `luhnOk`: from the right to the left. */
  method LuhnOk(digits: seq<Digit>) returns (ok: bool)
    ensures ok <==> Luhn(digits)
  {
    var sum, i, rank := 0, |digits|, 0;
    while i > 0
      invariant 0 <= i <= |digits| && rank == |digits| - i
      invariant sum == LuhnSum(digits[i..])
    {
      i := i - 1;
      var value: int := digits[i];
      if rank % 2 == 1 {
        value := value * 2;
        if value > 9 {
          value := value - 9;
        }
      }
      assert digits[i..][1..] == digits[i + 1..];
      sum := sum + value;
      rank := rank + 1;
    }
    ok := sum % 10 == 0;
  }

  /** Twice a digit, its two figures added. */
  function Doubled(d: Digit): nat { if d < 5 then 2 * d else 2 * d - 9 }

  /** The sum from the right: the last digit counts once, the one before it counts doubled, and so on by twos. */
  lemma {:induction false} LuhnByTwos(digits: seq<Digit>, x: Digit, y: Digit)
    ensures LuhnSum([]) == 0 && LuhnSum([y]) == y
    ensures LuhnSum(digits + [x, y]) == LuhnSum(digits) + Doubled(x) + y
  {
    if digits == [] {
      assert [] + [x, y] == [x, y] && [x, y][1..] == [y] && [y][1..] == [];
      assert LuhnSum([y]) == y;
    } else {
      LuhnByTwos(digits[1..], x, y);
      assert (digits + [x, y])[1..] == digits[1..] + [x, y];
    }
  }

  /** Changing one digit changes the sum by the change of its own weight. */
  lemma {:induction false} SumAfterChange(digits: seq<Digit>, i: nat, d: Digit)
    requires i < |digits|
    ensures var rank := |digits| - 1 - i;
            LuhnSum(digits[i := d]) == LuhnSum(digits) - Weighed(digits[i], rank) + Weighed(d, rank)
  {
    if i == 0 {
      assert digits[i := d][1..] == digits[1..];
    } else {
      assert digits[i := d][1..] == digits[1..][i - 1 := d];
      SumAfterChange(digits[1..], i - 1, d);
    }
  }

  /** Distinct digits have distinct weights at the same rank. */
  lemma WeightsDiffer(a: Digit, b: Digit, rank: nat)
    requires a != b
    ensures (Weighed(a, rank) - Weighed(b, rank)) % 10 != 0
  {
  }

  /** A wrong digit, wherever it stands and whatever the length, is always detected. */
  lemma LuhnDetectsOneError(digits: seq<Digit>, i: nat, d: Digit)
    requires Luhn(digits) && i < |digits| && d != digits[i]
    ensures !Luhn(digits[i := d])
  {
    var rank := |digits| - 1 - i;
    SumAfterChange(digits, i, d);
    WeightsDiffer(d, digits[i], rank);
    Shifted(LuhnSum(digits), Weighed(d, rank) - Weighed(digits[i], rank));
  }

  lemma Shifted(sum: int, change: int)
    requires sum % 10 == 0
    ensures (sum + change) % 10 == 0 <==> change % 10 == 0
  {
  }

  /** What swapping two neighbours does to their two weights. */
  lemma SwappedWeights(a: Digit, b: Digit, rank: nat)
    requires a != b
    ensures (Weighed(b, rank + 1) + Weighed(a, rank) - Weighed(a, rank + 1) - Weighed(b, rank)) % 10 == 0
            <==> {a, b} == {0, 9}
  {
    assert {a, b} == {0, 9} <==> (a == 0 && b == 9) || (a == 9 && b == 0) by {
      assert a in {a, b} && b in {a, b};
    }
  }

  /** Two neighbours that change places are detected, but for a zero and a nine, which never are. */
  lemma LuhnDetectsSwapsButZeroNine(digits: seq<Digit>, i: nat)
    requires Luhn(digits) && i + 1 < |digits| && digits[i] != digits[i + 1]
    ensures Luhn(digits[i := digits[i + 1]][i + 1 := digits[i]]) <==> {digits[i], digits[i + 1]} == {0, 9}
  {
    var a, b := digits[i], digits[i + 1];
    var rank := |digits| - 2 - i;
    SumAfterChange(digits, i, b);
    SumAfterChange(digits[i := b], i + 1, a);
    SwappedWeights(a, b, rank);
    Shifted(LuhnSum(digits), Weighed(b, rank + 1) + Weighed(a, rank) - Weighed(a, rank + 1) - Weighed(b, rank));
  }

  // ─── SIRET ───

  const LA_POSTE_SIREN: seq<Digit> := [3, 5, 6, 0, 0, 0, 0, 0, 0]

  function DigitSum(digits: seq<Digit>): nat {
    if digits == [] then 0 else digits[0] + DigitSum(digits[1..])
  }

  /** `isSiretShape`: fourteen digits, and the exception of La Poste. */
  predicate Siret(digits: seq<Digit>) {
    |digits| == 14 && if LA_POSTE_SIREN <= digits then DigitSum(digits) % 5 == 0 else Luhn(digits)
  }

  lemma {:induction false} DigitSumAfterChange(digits: seq<Digit>, i: nat, d: Digit)
    requires i < |digits|
    ensures DigitSum(digits[i := d]) == DigitSum(digits) - digits[i] + d
  {
    if i == 0 {
      assert digits[i := d][1..] == digits[1..];
    } else {
      assert digits[i := d][1..] == digits[1..][i - 1 := d];
      DigitSumAfterChange(digits[1..], i - 1, d);
    }
  }

  /** The one place where a digit that changes makes a number La Poste's. */
  predicate BecomesLaPoste(digits: seq<Digit>, i: nat, d: Digit)
    requires i < |digits|
  {
    !(LA_POSTE_SIREN <= digits) && LA_POSTE_SIREN <= digits[i := d]
  }

  /** When one wrong digit of a SIRET goes undetected, in every case: never between two numbers that are not La
    * Poste's; between two that are, when it is off by five; and when the digit makes or unmakes La Poste's SIREN, when
    * it makes up what the right number lacks under the other number's rule. */
  lemma SiretDetectsOneError(digits: seq<Digit>, i: nat, d: Digit)
    requires Siret(digits) && i < |digits| && d != digits[i]
    ensures Siret(digits[i := d]) <==>
              if BecomesLaPoste(digits, i, d) then (DigitSum(digits) + d - digits[i]) % 5 == 0
              else if !(LA_POSTE_SIREN <= digits) then false
              else if i < 9 then (LuhnSum(digits) + Weighed(d, 13 - i) - Weighed(digits[i], 13 - i)) % 10 == 0
              else d - digits[i] == 5 || digits[i] - d == 5
    ensures BecomesLaPoste(digits, i, d) ==> i < 9
  {
    DigitSumAfterChange(digits, i, d);
    SumAfterChange(digits, i, d);
    var wrong := digits[i := d];
    if LA_POSTE_SIREN <= digits {
      SirenMoves(digits, i, d);
      OffByFive(DigitSum(digits), digits[i], d);
    } else if LA_POSTE_SIREN <= wrong {
      SirenMoves(wrong, i, digits[i]);
      assert wrong[i := digits[i]] == digits;
    } else {
      LuhnDetectsOneError(digits, i, d);
    }
  }

  /** A change leaves La Poste's SIREN exactly when it comes behind it. */
  lemma SirenMoves(digits: seq<Digit>, i: nat, d: Digit)
    requires |digits| == 14 && LA_POSTE_SIREN <= digits && i < 14 && d != digits[i]
    ensures LA_POSTE_SIREN <= digits[i := d] <==> 9 <= i
  {
    if 9 <= i {
      assert digits[i := d][..9] == digits[..9];
    } else {
      assert digits[i := d][i] != LA_POSTE_SIREN[i];
    }
  }

  lemma OffByFive(sum: int, a: Digit, d: Digit)
    requires sum % 5 == 0 && a != d
    ensures (sum - a + d) % 5 == 0 <==> d - a == 5 || a - d == 5
  {
  }

  // ─── French VAT numbers ───

  /** A run of digits as a number. */
  function Value(digits: seq<Digit>): nat {
    if digits == [] then 0 else 10 * Value(digits[..|digits| - 1]) + digits[|digits| - 1]
  }

  /** `isFrenchVatShape`, when the key is numeric. */
  predicate VatNumber(key: seq<Digit>, siren: seq<Digit>) {
    |key| == 2 && |siren| == 9 && Value(key) == (12 + 3 * (Value(siren) % 97)) % 97
  }

  lemma ValueOfMore(digits: seq<Digit>, d: Digit)
    ensures Value(digits + [d]) == 10 * Value(digits) + d
  {
    assert (digits + [d])[..|digits|] == digits;
  }

  lemma TwoDigits(a: Digit, b: Digit)
    ensures Value([a, b]) == 10 * a + b
  {
    ValueOfMore([], a);
    ValueOfMore([a], b);
    assert [a] == [] + [a] && [a, b] == [a] + [b];
  }

  /** The key is the one number below 97 that is twelve more than three times the SIREN, but for multiples of 97. */
  lemma OneKeyPerSiren(a: Digit, b: Digit, siren: seq<Digit>)
    requires |siren| == 9
    ensures VatNumber([a, b], siren) <==> 10 * a + b < 97 && (10 * a + b - 12 - 3 * Value(siren)) % 97 == 0
  {
    TwoDigits(a, b);
    var q, r := Value(siren) / 97, Value(siren) % 97;
    assert Value(siren) == 97 * q + r;
    SameRemainder(10 * a + b, 12 + 3 * r, 3 * q);
  }

  /** What is below 97 is a remainder exactly when it differs by a multiple. */
  lemma SameRemainder(k: nat, n: nat, q: int)
    ensures k == n % 97 <==> k < 97 && (k - n - 97 * q) % 97 == 0
  {
    Multiples(-q, k - n);
    assert k - n - 97 * q == 97 * (-q) + (k - n);
    assert n == 97 * (n / 97) + n % 97;
  }

  function Pow10(n: nat): nat { if n == 0 then 1 else 10 * Pow10(n - 1) }

  /** How far a change of one digit moves the number. */
  function Moved(digits: seq<Digit>, i: nat, d: Digit): int
    requires i < |digits|
  {
    (d as int - digits[i] as int) * Pow10(|digits| - 1 - i)
  }

  lemma MovedBy(digits: seq<Digit>, i: nat, d: Digit)
    requires i < |digits| - 1
    ensures Moved(digits, i, d) == 10 * Moved(digits[..|digits| - 1], i, d)
  {
    var delta: int := d as int - digits[i] as int;
    var p := Pow10(|digits| - 2 - i);
    assert Pow10(|digits| - 1 - i) == 10 * p;
    assert delta * (10 * p) == 10 * (delta * p);
  }

  lemma {:induction false} ValueAfterChange(digits: seq<Digit>, i: nat, d: Digit)
    requires i < |digits|
    ensures Value(digits[i := d]) == Value(digits) + Moved(digits, i, d)
  {
    var n := |digits| - 1;
    if i == n {
      assert digits[i := d][..n] == digits[..n];
    } else {
      assert digits[i := d][..n] == digits[..n][i := d];
      ValueAfterChange(digits[..n], i, d);
      MovedBy(digits, i, d);
    }
  }

  lemma Pow10Values()
    ensures Pow10(0) == 1 && Pow10(1) == 10 && Pow10(2) == 100 && Pow10(3) == 1_000 && Pow10(4) == 10_000
    ensures Pow10(5) == 100_000 && Pow10(6) == 1_000_000 && Pow10(7) == 10_000_000 && Pow10(8) == 100_000_000
  {
    assert Pow10(2) == 100;
    assert Pow10(4) == 10_000;
    assert Pow10(6) == 1_000_000;
  }

  /** Three is invertible modulo 97: equal keys mean equal remainders. */
  lemma SameKey(v: nat, w: nat)
    requires (12 + 3 * (v % 97)) % 97 == (12 + 3 * (w % 97)) % 97
    ensures v % 97 == w % 97
  {
  }

  /** What has an inverse modulo 97 divides no multiple of it. */
  lemma Invertible(c: int, inverse: int, k: int, r: int)
    requires inverse * c == 97 * k + 1 && 1 <= r <= 96
    ensures (c * r) % 97 != 0
  {
    var q, w := c * r / 97, c * r % 97;
    assert c * r == 97 * q + w;
    assert inverse * (c * r) == (97 * k + 1) * r;
    assert r == 97 * (inverse * q - k * r) + inverse * w;
    Remainder(r, inverse * q - k * r, inverse * w);
  }

  lemma Remainder(r: int, t: int, rest: int)
    requires 1 <= r <= 96 && r == 97 * t + rest
    ensures rest != 0
  {
  }

  /** 97 is prime: a digit times a remainder is no multiple of it. */
  lemma DigitTimesRemainder(c: int, r: int)
    requires 1 <= c <= 9 && 1 <= r <= 96
    ensures (c * r) % 97 != 0
  {
    var inverses := [(1, 0), (49, 1), (65, 2), (73, 3), (39, 2), (81, 5), (14, 1), (85, 7), (54, 5)];
    Invertible(c, inverses[c - 1].0, inverses[c - 1].1, r);
  }

  lemma DigitTimes(c: int, x: int)
    requires 1 <= c <= 9 && x % 97 != 0
    ensures (c * x) % 97 != 0
  {
    var q, r := x / 97, x % 97;
    DigitTimesRemainder(c, r);
    assert c * x == 97 * (c * q) + c * r;
    Multiples(c * q, c * r);
  }

  lemma Multiples(q: int, r: int)
    ensures (97 * q + r) % 97 == r % 97
  {
  }

  lemma Opposite(c: int, x: int)
    requires (c * x) % 97 != 0
    ensures (-c * x) % 97 != 0
  {
    var y := c * x;
    assert -c * x == -y;
    NegatedRemainder(y);
  }

  lemma NegatedRemainder(y: int)
    ensures (-y) % 97 == 0 <==> y % 97 == 0
  {
  }

  lemma NotAMultiple(delta: int, x: int)
    requires -10 < delta < 10 && delta != 0 && x % 97 != 0
    ensures (delta * x) % 97 != 0
  {
    if delta > 0 {
      DigitTimes(delta, x);
    } else {
      DigitTimes(-delta, x);
      Opposite(-delta, x);
    }
  }

  /** The powers of ten up to a SIREN's length leave distinct remainders, none of them zero. */
  lemma PowerRemainders(m: nat, n: nat)
    requires m < n <= 8
    ensures Pow10(n) % 97 != 0 && Pow10(m) % 97 != 0 && (Pow10(n) - Pow10(m)) % 97 != 0
  {
    Pow10Values();
  }

  lemma RemainderMoves(v: nat, w: nat, change: int)
    requires w == v + change && v % 97 == w % 97
    ensures change % 97 == 0
  {
  }

  /** Two SIREN that share a numeric key differ by a multiple of 97. */
  lemma SharedKey(key: seq<Digit>, siren: seq<Digit>, wrong: seq<Digit>, change: int)
    requires VatNumber(key, siren) && VatNumber(key, wrong) && Value(wrong) == Value(siren) + change
    ensures change % 97 == 0
  {
    SameKey(Value(siren), Value(wrong));
    RemainderMoves(Value(siren), Value(wrong), change);
  }

  /** A numeric key detects every wrong digit of the SIREN. */
  lemma VatKeyDetectsOneError(key: seq<Digit>, siren: seq<Digit>, i: nat, d: Digit)
    requires VatNumber(key, siren) && i < 9 && d != siren[i]
    ensures !VatNumber(key, siren[i := d])
  {
    ValueAfterChange(siren, i, d);
    Pow10Values();
    NotAMultiple(d as int - siren[i] as int, Pow10(8 - i));
    if VatNumber(key, siren[i := d]) {
      SharedKey(key, siren, siren[i := d], Moved(siren, i, d));
    }
  }

  lemma SwapMoves(siren: seq<Digit>, i: nat, j: nat)
    requires |siren| == 9 && i < j < 9
    ensures Value(siren[i := siren[j]][j := siren[i]])
         == Value(siren) + (siren[j] as int - siren[i] as int) * (Pow10(8 - i) - Pow10(8 - j))
  {
    var half := siren[i := siren[j]];
    ValueAfterChange(siren, i, siren[j]);
    ValueAfterChange(half, j, siren[i]);
    Factored(siren[j] as int - siren[i] as int, Pow10(8 - i), Pow10(8 - j));
  }

  lemma Factored(d: int, x: int, y: int)
    ensures d * x + (-d) * y == d * (x - y)
  {
  }

  /** And every two digits of the SIREN that change places, neighbours or not. */
  lemma VatKeyDetectsSwaps(key: seq<Digit>, siren: seq<Digit>, i: nat, j: nat)
    requires VatNumber(key, siren) && i < j < 9 && siren[i] != siren[j]
    ensures !VatNumber(key, siren[i := siren[j]][j := siren[i]])
  {
    var wrong := siren[i := siren[j]][j := siren[i]];
    var delta: int, step := siren[j] as int - siren[i] as int, Pow10(8 - i) - Pow10(8 - j);
    SwapMoves(siren, i, j);
    PowerRemainders(8 - j, 8 - i);
    NotAMultiple(delta, step);
    if VatNumber(key, wrong) {
      SharedKey(key, siren, wrong, delta * step);
    }
  }
}
