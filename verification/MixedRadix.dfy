/**
 * Base-4 digits of process-matrix indices: spread over a subset of the qubits, taken back, and
 * read off one by one.
 */
module MixedRadix {
  import R = Registers

  function Pow4(n: nat): nat
    ensures Pow4(n) >= 1
  {
    if n == 0 then 1 else 4 * Pow4(n - 1)
  }

  /** Which of the qubits are in a subset, qubit 0 first; the last qubit has the lowest digit. */
  type Mask = seq<bool>

  function Count(mask: Mask): (c: nat)
    ensures c <= |mask|
  {
    if mask == [] then 0 else Count(mask[..|mask| - 1]) + if mask[|mask| - 1] then 1 else 0
  }

  function Opposite(mask: Mask): (m: Mask)
    ensures |m| == |mask|
  {
    seq(|mask|, i requires 0 <= i < |mask| => !mask[i])
  }

  /** The number whose digits on the masked qubits are those of i, and 0 elsewhere. */
  function Place(mask: Mask, i: nat): nat {
    if mask == [] then 0
    else if mask[|mask| - 1] then i % 4 + 4 * Place(mask[..|mask| - 1], i / 4)
    else 4 * Place(mask[..|mask| - 1], i)
  }

  /** The digits of x on the masked qubits. */
  function Take(mask: Mask, x: nat): nat {
    if mask == [] then 0
    else if mask[|mask| - 1] then x % 4 + 4 * Take(mask[..|mask| - 1], x / 4)
    else Take(mask[..|mask| - 1], x / 4)
  }

  lemma OppositeInit(mask: Mask)
    requires mask != []
    ensures Opposite(mask)[..|mask| - 1] == Opposite(mask[..|mask| - 1])
    ensures Opposite(mask)[|mask| - 1] == !mask[|mask| - 1]
  {}

  lemma {:induction false} CountBoth(mask: Mask)
    ensures Count(mask) + Count(Opposite(mask)) == |mask|
  {
    if mask != [] {
      OppositeInit(mask);
      CountBoth(mask[..|mask| - 1]);
    }
  }

  lemma {:induction false} Pow4Add(a: nat, b: nat)
    ensures Pow4(a + b) == Pow4(a) * Pow4(b)
  {
    if a > 0 {
      Pow4Add(a - 1, b);
      Quadruple(Pow4(a - 1), Pow4(b));
    }
  }

  lemma Quadruple(a: nat, b: nat)
    ensures 4 * (a * b) == (4 * a) * b
  {}

  /** The removed qubits account for the rest of the index range. */
  lemma SizeProduct(mask: Mask, all: nat, kept: nat, removed: nat)
    requires all == |mask| && kept == Count(mask) && removed == Count(Opposite(mask))
    ensures Pow4(all) == Pow4(kept) * Pow4(removed)
  {
    CountBoth(mask);
    Pow4Add(kept, removed);
  }

  lemma Quotient(v: nat, a: nat, b: nat)
    requires a > 0 && v == a * b
    ensures v / a == b
  {
    R.ModUnique(v, a, b, 0);
  }

  lemma {:induction false} PlaceBound(mask: Mask, i: nat)
    ensures Place(mask, i) < Pow4(|mask|)
  {
    if mask != [] {
      PlaceBound(mask[..|mask| - 1], i / 4);
      PlaceBound(mask[..|mask| - 1], i);
    }
  }

  lemma {:induction false} TakeBound(mask: Mask, x: nat)
    ensures Take(mask, x) < Pow4(Count(mask))
  {
    if mask != [] { TakeBound(mask[..|mask| - 1], x / 4); }
  }

  /** Digits placed on a subset and on its complement can be taken back separately, ... */
  lemma {:induction false} TakePlaced(mask: Mask, i: nat, k: nat)
    requires i < Pow4(Count(mask)) && k < Pow4(Count(Opposite(mask)))
    ensures var x := Place(mask, i) + Place(Opposite(mask), k);
            x < Pow4(|mask|) && Take(mask, x) == i && Take(Opposite(mask), x) == k
  {
    if mask != [] {
      var init := mask[..|mask| - 1];
      OppositeInit(mask);
      if mask[|mask| - 1] {
        var rest := Place(init, i / 4) + Place(Opposite(init), k);
        TakePlaced(init, i / 4, k);
        LowDigit(Place(mask, i) + Place(Opposite(mask), k), i % 4, rest);
      } else {
        var rest := Place(init, i) + Place(Opposite(init), k / 4);
        TakePlaced(init, i, k / 4);
        LowDigit(Place(mask, i) + Place(Opposite(mask), k), k % 4, rest);
      }
    }
  }

  lemma LowDigit(x: nat, digit: nat, rest: nat)
    requires x == digit + 4 * rest && digit < 4
    ensures x / 4 == rest && x % 4 == digit
  {}

  /** ... and every index is the sum of its two parts: a bijection onto [0, 4^n). */
  lemma {:induction false} PlaceTaken(mask: Mask, x: nat)
    requires x < Pow4(|mask|)
    ensures Place(mask, Take(mask, x)) + Place(Opposite(mask), Take(Opposite(mask), x)) == x
  {
    if mask != [] {
      OppositeInit(mask);
      PlaceTaken(mask[..|mask| - 1], x / 4);
    }
  }

  lemma PlaceDigit(mask: Mask, i: nat, digit: nat)
    requires mask != [] && mask[|mask| - 1] && digit < 4
    ensures Place(mask, 4 * i + digit) == 4 * Place(mask[..|mask| - 1], i) + digit
  {
    assert (4 * i + digit) / 4 == i && (4 * i + digit) % 4 == digit;
  }

  /** Keeping every qubit keeps the index. */
  lemma {:induction false} PlaceAll(mask: Mask, i: nat)
    requires forall q :: 0 <= q < |mask| ==> mask[q]
    ensures Count(mask) == |mask| && (i < Pow4(|mask|) ==> Place(mask, i) == i)
  {
    if mask != [] {
      PlaceAll(mask[..|mask| - 1], i / 4);
    }
  }

  lemma {:induction false} PlaceNone(mask: Mask, i: nat)
    requires forall q :: 0 <= q < |mask| ==> !mask[q]
    ensures Count(mask) == 0 && Place(mask, i) == 0
  {
    if mask != [] {
      PlaceNone(mask[..|mask| - 1], i);
    }
  }

  // ---------------------------------------------------------------- sets of qubits

  /** Strictly ascending, as a std::set of indices is iterated. */
  predicate Ascending(s: seq<nat>) {
    forall i, j :: 0 <= i < j < |s| ==> s[i] < s[j]
  }

  predicate IndexSet(s: seq<nat>, n: nat) {
    Ascending(s) && forall q :: q in s ==> q < n
  }

  function MaskOf(n: nat, s: seq<nat>): (mask: Mask)
    ensures |mask| == n
  {
    seq(n, q => q in s)
  }

  /** The mask counts the listed qubits. */
  lemma {:induction false} CountMembers(n: nat, s: seq<nat>)
    requires IndexSet(s, n)
    ensures Count(MaskOf(n, s)) == |s|
    decreases n
  {
    if n == 0 {
      HasMember(s);
    } else if n - 1 in s {
      var m := |s| - 1;
      assert s[m] in s;
      var j :| 0 <= j < |s| && s[j] == n - 1;
      assert j == m;
      DropLast(n, s);
      CountMembers(n - 1, s[..m]);
    } else {
      assert MaskOf(n, s)[..n - 1] == MaskOf(n - 1, s);
      CountMembers(n - 1, s);
    }
  }

  lemma HasMember(s: seq<nat>)
    ensures s == [] || exists q :: q in s
  {
    if s != [] { assert s[0] in s; }
  }

  lemma DropLast(n: nat, s: seq<nat>)
    requires n >= 1 && IndexSet(s, n) && s != [] && s[|s| - 1] == n - 1
    ensures IndexSet(s[..|s| - 1], n - 1) && MaskOf(n, s)[..n - 1] == MaskOf(n - 1, s[..|s| - 1])
  {
    var init := s[..|s| - 1];
    forall q: nat | q < n - 1
      ensures q in s <==> q in init
    {
      assert s == init + [n - 1];
    }
    forall q | q in init
      ensures q < n - 1
    {
      var j :| 0 <= j < |init| && init[j] == q;
      assert s[j] == q;
    }
  }

  // ---------------------------------------------------------------- digits

  /** Base-4 digit k of x, from the lowest on. */
  function Digit(x: nat, k: nat): nat {
    if k == 0 then x % 4 else Digit(x / 4, k - 1)
  }

  lemma {:induction false} DigitIs(x: nat, k: nat)
    ensures Digit(x, k) == x / Pow4(k) % 4
  {
    if k > 0 {
      DigitIs(x / 4, k - 1);
      QuotientInSteps(x, 4, Pow4(k - 1));
    }
  }

  lemma QuotientInSteps(x: nat, a: nat, b: nat)
    requires a > 0 && b > 0 && a * b > 0
    ensures x / a / b == x / (a * b)
  {
    var q := x / a / b;
    var r := x % a + a * (x / a % b);
    assert x == a * (x / a) + x % a && x / a == b * q + x / a % b;
    assert a * (b * q) == (a * b) * q;
    R.MulMonotone(a, x / a % b, b - 1);
    R.ModUnique(x, a * b, q, r);
  }

  /** A masked qubit is given the digit of i that as many masked qubits lie behind; the others are given 0. */
  lemma {:induction false} PlaceDigits(mask: Mask, i: nat, q: nat)
    requires q < |mask|
    ensures Digit(Place(mask, i), |mask| - 1 - q) == if mask[q] then Digit(i, Count(mask[q + 1..])) else 0
    decreases |mask|
  {
    var m := |mask| - 1;
    var init, behind := mask[..m], mask[q + 1..];
    if q < m {
      assert behind[..|behind| - 1] == init[q + 1..] && behind[|behind| - 1] == mask[m];
      if mask[m] {
        LowDigit(Place(mask, i), i % 4, Place(init, i / 4));
        PlaceDigits(init, i / 4, q);
      } else {
        LowDigit(Place(mask, i), 0, Place(init, i));
        PlaceDigits(init, i, q);
      }
    } else {
      assert behind == [];
      LowDigit(Place(mask, i), if mask[m] then i % 4 else 0, Place(init, if mask[m] then i / 4 else i));
    }
  }

  lemma {:induction false} ListedBehind(n: nat, indices: seq<nat>, j: nat)
    requires IndexSet(indices, n) && j < |indices|
    ensures indices[j] < n && Count(MaskOf(n, indices)[indices[j] + 1..]) == |indices| - 1 - j
    decreases n
  {
    var m, e := |indices| - 1, indices[j];
    assert e in indices && indices[m] in indices;
    var mask := MaskOf(n, indices);
    var behind := mask[e + 1..];
    if indices[m] == n - 1 {
      DropLast(n, indices);
      if j < m {
        assert behind[..|behind| - 1] == MaskOf(n - 1, indices[..m])[e + 1..];
        ListedBehind(n - 1, indices[..m], j);
      }
    } else {
      LastSmaller(n, indices);
      assert behind[..|behind| - 1] == MaskOf(n - 1, indices)[e + 1..];
      ListedBehind(n - 1, indices, j);
    }
  }

  lemma LastSmaller(n: nat, indices: seq<nat>)
    requires IndexSet(indices, n) && indices != [] && indices[|indices| - 1] != n - 1
    ensures n >= 1 && IndexSet(indices, n - 1) && n - 1 !in indices
  {
    var m := |indices| - 1;
    forall q | q in indices
      ensures q < n - 1
    {
      var j :| 0 <= j < |indices| && indices[j] == q;
      assert q <= indices[m] && indices[m] in indices;
    }
    assert indices[m] in indices;
  }

  /** The index that is read off for a set of qubits: digit by digit, the last qubit of the set has the lowest digit. */
  lemma IndexDigits(n: nat, indices: seq<nat>, index: nat, q: nat)
    requires IndexSet(indices, n) && q < n
    ensures var digit := Digit(Place(MaskOf(n, indices), index), n - 1 - q);
            && (q !in indices ==> digit == 0)
            && forall j :: 0 <= j < |indices| && indices[j] == q ==> digit == Digit(index, |indices| - 1 - j)
  {
    PlaceDigits(MaskOf(n, indices), index, q);
    forall j | 0 <= j < |indices| && indices[j] == q
      ensures Digit(Place(MaskOf(n, indices), index), n - 1 - q) == Digit(index, |indices| - 1 - j)
    {
      ListedBehind(n, indices, j);
    }
  }

  // ---------------------------------------------------------------- get_index

  /** What the masked qubits below cut contribute, each digit with the weight of its qubit. */
  function Weighted(mask: Mask, cut: nat, i: nat): nat
    requires cut <= |mask|
  {
    if cut == 0 then 0
    else if mask[cut - 1] then Weight(|mask| - cut, i % 4) + Weighted(mask, cut - 1, i / 4)
    else Weighted(mask, cut - 1, i)
  }

  function Weight(place: nat, digit: nat): nat {
    Pow4(place) * digit
  }

  /** Summing weighted digits is placing them. */
  lemma {:induction false} WeightedIsPlaced(mask: Mask, cut: nat, i: nat)
    requires cut <= |mask|
    ensures Weighted(mask, cut, i) == Pow4(|mask| - cut) * Place(mask[..cut], i)
    decreases cut
  {
    if cut > 0 {
      var low := mask[..cut];
      assert low[..cut - 1] == mask[..cut - 1];
      if mask[cut - 1] {
        WeightedIsPlaced(mask, cut - 1, i / 4);
        Factor(Pow4(|mask| - cut), i % 4, Place(mask[..cut - 1], i / 4));
      } else {
        WeightedIsPlaced(mask, cut - 1, i);
        Factor(Pow4(|mask| - cut), 0, Place(mask[..cut - 1], i));
      }
    }
  }

  lemma Factor(w: nat, digit: nat, rest: nat)
    ensures w * digit + (4 * w) * rest == w * (digit + 4 * rest)
  {
    assert (4 * w) * rest == w * (4 * rest);
  }

  /** Unmasked qubits contribute nothing. */
  lemma {:induction false} SkipUnmasked(mask: Mask, from: nat, cut: nat, i: nat)
    requires from <= cut <= |mask| && forall q :: from <= q < cut ==> !mask[q]
    ensures Weighted(mask, cut, i) == Weighted(mask, from, i)
    decreases cut
  {
    if from < cut { SkipUnmasked(mask, from, cut - 1, i); }
  }

  lemma NotListed(indices: seq<nat>, it: nat, q: nat)
    requires it <= |indices|
    requires (forall j :: 0 <= j < it ==> indices[j] < q) && forall j :: it <= j < |indices| ==> q < indices[j]
    ensures q !in indices
  {}

  method GetIndex(n: nat, indices: seq<nat>, index: nat) returns (result: nat)
    requires IndexSet(indices, n)
    ensures result == Place(MaskOf(n, indices), index)
  {
    result := 0;
    var rest := index;
    var it := |indices|;
    ghost var mask, cut := MaskOf(n, indices), n;
    assert forall q :: 0 <= q < |indices| ==> indices[q] in indices;
    while it > 0
      invariant 0 <= it <= |indices| && 0 <= cut <= n
      invariant forall q :: 0 <= q < it ==> indices[q] < cut
      invariant forall q :: it <= q < |indices| ==> cut <= indices[q]
      invariant result + Weighted(mask, cut, rest) == Weighted(mask, n, index)
    {
      it := it - 1;
      NextIndex(n, indices, it, cut, rest);
      result := result + Pow4(n - indices[it] - 1) * (rest % 4);
      rest := rest / 4;
      cut := indices[it];
    }
    forall q | 0 <= q < cut
      ensures !mask[q]
    {
      NotListed(indices, 0, q);
    }
    SkipUnmasked(mask, 0, cut, rest);
    WeightedIsPlaced(mask, n, index);
    assert mask[..n] == mask;
  }

  /** The next index below the processed ones contributes one digit at its place. */
  lemma NextIndex(n: nat, indices: seq<nat>, it: nat, cut: nat, i: nat)
    requires IndexSet(indices, n) && it < |indices| && cut <= n
    requires indices[it] < cut && forall q :: it < q < |indices| ==> cut <= indices[q]
    ensures var mask, e := MaskOf(n, indices), indices[it];
            Weighted(mask, cut, i) == Pow4(n - e - 1) * (i % 4) + Weighted(mask, e, i / 4)
  {
    var mask, e := MaskOf(n, indices), indices[it];
    forall q | e < q < cut
      ensures !mask[q]
    {
      NotListed(indices, it + 1, q);
    }
    SkipUnmasked(mask, e + 1, cut, i);
    assert e in indices;
  }

  method GetComplementarySet(n: nat, s: seq<nat>) returns (complement: seq<nat>)
    ensures IndexSet(complement, n)
    ensures forall q :: q in complement <==> 0 <= q < n && q !in s
    ensures MaskOf(n, complement) == Opposite(MaskOf(n, s))
  {
    complement := [];
    for i := 0 to n
      invariant IndexSet(complement, i) && forall j :: 0 <= j < |complement| ==> complement[j] in complement
      invariant forall q :: q in complement <==> 0 <= q < i && q !in s
    {
      if i !in s {
        complement := complement + [i];
      }
    }
  }
}
