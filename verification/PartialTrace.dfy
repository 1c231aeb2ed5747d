/** Partial traces of process matrices. */
module PartialTrace {
  import opened MixedRadix
  import opened ComplexSums

  /** Entry (i, j) of the partial trace: the sum over the digits on the removed qubits. */
  function Traced(full: Entries, mask: Mask, i: nat, j: nat): Complex {
    Sum(Pow4(Count(Opposite(mask))), Shifted(full, mask, Place(mask, i), Place(mask, j)))
  }

  function Shifted(full: Entries, mask: Mask, left: nat, right: nat): nat -> Complex {
    (k: nat) => full(left + Place(Opposite(mask), k), right + Place(Opposite(mask), k))
  }

  function Trace(m: nat, a: Entries): Complex {
    Sum(m, Diagonal(a))
  }

  function Diagonal(a: Entries): nat -> Complex {
    (i: nat) => a(i, i)
  }

  // ---------------------------------------------------------------- sums over digits

  /** The four indices that share all digits but the lowest, together. */
  function FourOf(g: nat -> Complex): nat -> Complex {
    (y: nat) => g(4 * y).Plus(g(4 * y + 1)).Plus(g(4 * y + 2)).Plus(g(4 * y + 3))
  }

  lemma SumByFour(m: nat, g: nat -> Complex)
    ensures Sum(4 * m, g) == Sum(m, FourOf(g))
  {
    SumFours(m, 4 * m, g);
  }

  lemma {:induction false} SumFours(m: nat, n: nat, g: nat -> Complex)
    requires n == 4 * m
    ensures Sum(n, g) == Sum(m, FourOf(g))
  {
    if m > 0 {
      SumFours(m - 1, n - 4, g);
      SumFourMore(n - 4, g);
      assert FourOf(g)(m - 1) == g(n - 4).Plus(g(n - 3)).Plus(g(n - 2)).Plus(g(n - 1));
    }
  }

  lemma SumFourMore(m: nat, g: nat -> Complex)
    ensures Sum(m + 4, g) == Sum(m, g).Plus(g(m).Plus(g(m + 1)).Plus(g(m + 2)).Plus(g(m + 3)))
  {
    assert Sum(m + 4, g) == Sum(m + 3, g).Plus(g(m + 3));
    assert Sum(m + 3, g) == Sum(m + 2, g).Plus(g(m + 2));
    assert Sum(m + 2, g) == Sum(m + 1, g).Plus(g(m + 1));
    assert Sum(m + 1, g) == Sum(m, g).Plus(g(m));
  }

  /** Removed digits on top of a base index. */
  function Removed(mask: Mask, g: nat -> Complex, base: nat): nat -> Complex {
    (k: nat) => g(base + Place(Opposite(mask), k))
  }

  function Kept(mask: Mask, g: nat -> Complex): nat -> Complex {
    (i: nat) => Sum(Pow4(Count(Opposite(mask))), Removed(mask, g, Place(mask, i)))
  }

  /** The sum over all pairs of digits on the subset and digits on its complement. */
  function DoubleSum(mask: Mask, g: nat -> Complex): Complex {
    Sum(Pow4(Count(mask)), Kept(mask, g))
  }

  lemma SumFour(m: nat, a: nat -> Complex, b: nat -> Complex, c: nat -> Complex, d: nat -> Complex, all: nat -> Complex)
    requires forall i :: 0 <= i < m ==> all(i) == a(i).Plus(b(i)).Plus(c(i)).Plus(d(i))
    ensures Sum(m, all) == Sum(m, a).Plus(Sum(m, b)).Plus(Sum(m, c)).Plus(Sum(m, d))
  {
    var ab := Pointwise(a, b);
    var abc := Pointwise(ab, c);
    SumPlus(m, a, b, ab);
    SumPlus(m, ab, c, abc);
    SumPlus(m, abc, d, all);
  }

  lemma KeptAt(mask: Mask, g: nat -> Complex, i: nat, digit: nat, at: nat, from: nat)
    requires mask != [] && mask[|mask| - 1] && digit < 4
    requires at == 4 * i + digit && from == 4 * Place(mask[..|mask| - 1], i) + digit
    ensures Kept(mask, g)(at) == Sum(Pow4(Count(Opposite(mask[..|mask| - 1]))), Removed(mask, g, from))
  {
    OppositeInit(mask);
    PlaceDigit(mask, i, digit);
  }

  lemma FourIs(g: nat -> Complex, i: nat, c0: Complex, c1: Complex, c2: Complex, c3: Complex)
    requires g(4 * i) == c0 && g(4 * i + 1) == c1 && g(4 * i + 2) == c2 && g(4 * i + 3) == c3
    ensures FourOf(g)(i) == c0.Plus(c1).Plus(c2).Plus(c3)
  {}

  /** The last qubit is kept: its digit is summed in the outer sum. */
  lemma KeptDigit(mask: Mask, g: nat -> Complex, i: nat)
    requires mask != [] && mask[|mask| - 1]
    ensures FourOf(Kept(mask, g))(i) == Kept(mask[..|mask| - 1], FourOf(g))(i)
  {
    var init := mask[..|mask| - 1];
    var m, base := Pow4(Count(Opposite(init))), Place(init, i);
    KeptAt(mask, g, i, 0, 4 * i, 4 * base);
    KeptAt(mask, g, i, 1, 4 * i + 1, 4 * base + 1);
    KeptAt(mask, g, i, 2, 4 * i + 2, 4 * base + 2);
    KeptAt(mask, g, i, 3, 4 * i + 3, 4 * base + 3);
    RemovedFour(mask, g, base, m);
    FourIs(Kept(mask, g), i, Sum(m, Removed(mask, g, 4 * base)), Sum(m, Removed(mask, g, 4 * base + 1)),
           Sum(m, Removed(mask, g, 4 * base + 2)), Sum(m, Removed(mask, g, 4 * base + 3)));
  }

  lemma RemovedFour(mask: Mask, g: nat -> Complex, base: nat, m: nat)
    requires mask != [] && mask[|mask| - 1]
    ensures Sum(m, Removed(mask[..|mask| - 1], FourOf(g), base))
         == Sum(m, Removed(mask, g, 4 * base)).Plus(Sum(m, Removed(mask, g, 4 * base + 1)))
              .Plus(Sum(m, Removed(mask, g, 4 * base + 2))).Plus(Sum(m, Removed(mask, g, 4 * base + 3)))
  {
    var init := mask[..|mask| - 1];
    var f0, f1 := Removed(mask, g, 4 * base), Removed(mask, g, 4 * base + 1);
    var f2, f3 := Removed(mask, g, 4 * base + 2), Removed(mask, g, 4 * base + 3);
    var all := Removed(init, FourOf(g), base);
    OppositeInit(mask);
    forall k | 0 <= k < m
      ensures all(k) == f0(k).Plus(f1(k)).Plus(f2(k)).Plus(f3(k))
    {
      var p := Place(Opposite(init), k);
      assert Place(Opposite(mask), k) == 4 * p;
      FourAt(g, base, p, f0(k), f1(k), f2(k), f3(k));
    }
    SumFour(m, f0, f1, f2, f3, all);
  }

  lemma FourAt(g: nat -> Complex, base: nat, p: nat, c0: Complex, c1: Complex, c2: Complex, c3: Complex)
    requires c0 == g(4 * base + 4 * p) && c1 == g(4 * base + 1 + 4 * p)
    requires c2 == g(4 * base + 2 + 4 * p) && c3 == g(4 * base + 3 + 4 * p)
    ensures FourOf(g)(base + p) == c0.Plus(c1).Plus(c2).Plus(c3)
  {
    assert 4 * base + 4 * p == 4 * (base + p);
  }

  lemma KeptAbove(mask: Mask, g: nat -> Complex, i: nat)
    requires mask != [] && !mask[|mask| - 1]
    ensures var init := mask[..|mask| - 1];
            Kept(mask, g)(i) == Sum(4 * Pow4(Count(Opposite(init))), Removed(mask, g, 4 * Place(init, i)))
  {
    OppositeInit(mask);
  }

  /** The last qubit is removed: its digit is summed in the inner sum. */
  lemma RemovedDigit(mask: Mask, g: nat -> Complex, i: nat)
    requires mask != [] && !mask[|mask| - 1]
    ensures Kept(mask, g)(i) == Kept(mask[..|mask| - 1], FourOf(g))(i)
  {
    var init := mask[..|mask| - 1];
    var m, base := Pow4(Count(Opposite(init))), Place(init, i);
    KeptAbove(mask, g, i);
    SumByFour(m, Removed(mask, g, 4 * base));
    InnerFour(mask, g, base, m);
  }

  lemma InnerFour(mask: Mask, g: nat -> Complex, base: nat, m: nat)
    requires mask != [] && !mask[|mask| - 1]
    ensures Sum(m, FourOf(Removed(mask, g, 4 * base))) == Sum(m, Removed(mask[..|mask| - 1], FourOf(g), base))
  {
    var inner, all := Removed(mask, g, 4 * base), Removed(mask[..|mask| - 1], FourOf(g), base);
    forall k | 0 <= k < m
      ensures FourOf(inner)(k) == all(k)
    {
      InnerAt(mask, g, base, k);
    }
    SumSame(m, FourOf(inner), all);
  }

  lemma RemovedAt(mask: Mask, g: nat -> Complex, base: nat, k: nat, digit: nat, at: nat, from: nat)
    requires mask != [] && !mask[|mask| - 1] && digit < 4 && at == 4 * k + digit
    requires from == 4 * base + digit + 4 * Place(Opposite(mask[..|mask| - 1]), k)
    ensures Removed(mask, g, 4 * base)(at) == g(from)
  {
    OppositeInit(mask);
    PlaceDigit(Opposite(mask), k, digit);
  }

  lemma RemovedAtFour(mask: Mask, g: nat -> Complex, base: nat, k: nat, p: nat)
    requires mask != [] && !mask[|mask| - 1] && p == Place(Opposite(mask[..|mask| - 1]), k)
    ensures Removed(mask, g, 4 * base)(4 * k) == g(4 * base + 4 * p)
    ensures Removed(mask, g, 4 * base)(4 * k + 1) == g(4 * base + 1 + 4 * p)
    ensures Removed(mask, g, 4 * base)(4 * k + 2) == g(4 * base + 2 + 4 * p)
    ensures Removed(mask, g, 4 * base)(4 * k + 3) == g(4 * base + 3 + 4 * p)
  {
    RemovedAt(mask, g, base, k, 0, 4 * k, 4 * base + 4 * p);
    RemovedAt(mask, g, base, k, 1, 4 * k + 1, 4 * base + 1 + 4 * p);
    RemovedAt(mask, g, base, k, 2, 4 * k + 2, 4 * base + 2 + 4 * p);
    RemovedAt(mask, g, base, k, 3, 4 * k + 3, 4 * base + 3 + 4 * p);
  }

  lemma InnerAt(mask: Mask, g: nat -> Complex, base: nat, k: nat)
    requires mask != [] && !mask[|mask| - 1]
    ensures FourOf(Removed(mask, g, 4 * base))(k) == Removed(mask[..|mask| - 1], FourOf(g), base)(k)
  {
    var p, inner := Place(Opposite(mask[..|mask| - 1]), k), Removed(mask, g, 4 * base);
    RemovedAtFour(mask, g, base, k, p);
    FourIs(inner, k, g(4 * base + 4 * p), g(4 * base + 1 + 4 * p), g(4 * base + 2 + 4 * p), g(4 * base + 3 + 4 * p));
    FourAt(g, base, p, g(4 * base + 4 * p), g(4 * base + 1 + 4 * p), g(4 * base + 2 + 4 * p), g(4 * base + 3 + 4 * p));
  }

  /** Summing over kept and removed digits is summing over all indices. */
  lemma {:induction false} DoubleSumIsSum(mask: Mask, g: nat -> Complex)
    ensures DoubleSum(mask, g) == Sum(Pow4(|mask|), g)
    decreases |mask|
  {
    if mask == [] {
      assert Kept(mask, g)(0) == Sum(1, Removed(mask, g, 0));
      assert Removed(mask, g, 0)(0) == g(0);
      assert Sum(1, Removed(mask, g, 0)) == Sum(0, Removed(mask, g, 0)).Plus(g(0));
      assert Sum(1, Kept(mask, g)) == Sum(0, Kept(mask, g)).Plus(Kept(mask, g)(0));
      assert Sum(1, g) == Sum(0, g).Plus(g(0));
    } else {
      var init := mask[..|mask| - 1];
      OppositeInit(mask);
      DoubleSumIsSum(init, FourOf(g));
      SumByFour(Pow4(|init|), g);
      OneDigit(mask, g);
    }
  }

  lemma OneDigit(mask: Mask, g: nat -> Complex)
    requires mask != []
    ensures DoubleSum(mask, g) == DoubleSum(mask[..|mask| - 1], FourOf(g))
  {
    var init := mask[..|mask| - 1];
    var m := Pow4(Count(init));
    if mask[|mask| - 1] {
      SumByFour(m, Kept(mask, g));
      forall i | 0 <= i < m
        ensures FourOf(Kept(mask, g))(i) == Kept(init, FourOf(g))(i)
      {
        KeptDigit(mask, g, i);
      }
      SumSame(m, FourOf(Kept(mask, g)), Kept(init, FourOf(g)));
    } else {
      forall i | 0 <= i < m
        ensures Kept(mask, g)(i) == Kept(init, FourOf(g))(i)
      {
        RemovedDigit(mask, g, i);
      }
      SumSame(m, Kept(mask, g), Kept(init, FourOf(g)));
    }
  }

  // ---------------------------------------------------------------- laws of the partial trace

  function TracedEntries(full: Entries, mask: Mask): Entries {
    (i: nat, j: nat) => Traced(full, mask, i, j)
  }

  /** The partial trace keeps the trace, whichever qubits are kept. */
  lemma TraceKept(full: Entries, mask: Mask)
    ensures Trace(Pow4(Count(mask)), TracedEntries(full, mask)) == Trace(Pow4(|mask|), full)
  {
    var reduced, sums := Diagonal(TracedEntries(full, mask)), Kept(mask, Diagonal(full));
    DoubleSumIsSum(mask, Diagonal(full));
    forall i | 0 <= i < Pow4(Count(mask))
      ensures reduced(i) == sums(i)
    {
      var left := Place(mask, i);
      SumSame(Pow4(Count(Opposite(mask))), Shifted(full, mask, left, left), Removed(mask, Diagonal(full), left));
    }
    SumSame(Pow4(Count(mask)), reduced, sums);
  }

  /** Keeping every qubit keeps the matrix. */
  lemma TracedAll(full: Entries, mask: Mask, i: nat, j: nat)
    requires forall q :: 0 <= q < |mask| ==> mask[q]
    requires i < Pow4(|mask|) && j < Pow4(|mask|)
    ensures Traced(full, mask, i, j) == full(i, j)
  {
    PlaceAll(mask, i);
    PlaceAll(mask, j);
    NothingRemoved(full, Opposite(mask), mask, i, j);
  }

  lemma NothingRemoved(full: Entries, other: Mask, mask: Mask, i: nat, j: nat)
    requires other == Opposite(mask) && forall q :: 0 <= q < |other| ==> !other[q]
    ensures Sum(Pow4(Count(other)), Shifted(full, mask, i, j)) == full(i, j)
  {
    PlaceNone(other, 0);
    var g := Shifted(full, mask, i, j);
    assert Sum(1, g) == Sum(0, g).Plus(g(0));
  }

  /** An entry by the kept digits of row and column and their removed digits. */
  type ByDigits = (nat, nat, nat, nat) -> Complex

  ghost predicate ReadsDigits(full: Entries, mask: Mask, h: ByDigits) {
    forall x: nat, y: nat :: x < Pow4(|mask|) && y < Pow4(|mask|) ==>
      full(x, y) == h(Take(mask, x), Take(mask, y), Take(Opposite(mask), x), Take(Opposite(mask), y))
  }

  function SameRemoved(h: ByDigits, i: nat, j: nat): nat -> Complex {
    (k: nat) => h(i, j, k, k)
  }

  /** Entry (i, j) adds up the entries with these digits on the kept qubits and equal ones on the removed qubits. */
  lemma TracedByDigits(full: Entries, mask: Mask, h: ByDigits, i: nat, j: nat)
    requires ReadsDigits(full, mask, h) && i < Pow4(Count(mask)) && j < Pow4(Count(mask))
    ensures Traced(full, mask, i, j) == Sum(Pow4(Count(Opposite(mask))), SameRemoved(h, i, j))
  {
    var terms, size := Shifted(full, mask, Place(mask, i), Place(mask, j)), Pow4(Count(Opposite(mask)));
    forall k | 0 <= k < size
      ensures terms(k) == SameRemoved(h, i, j)(k)
    {
      var x, y := Place(mask, i) + Place(Opposite(mask), k), Place(mask, j) + Place(Opposite(mask), k);
      PlacedDigits(mask, i, k, x);
      PlacedDigits(mask, j, k, y);
      TermByDigits(full, mask, h, i, j, k, x, y);
      ShiftedAt(full, mask, Place(mask, i), Place(mask, j), k, x, y);
    }
    SumSame(size, terms, SameRemoved(h, i, j));
  }

  lemma PlacedDigits(mask: Mask, i: nat, k: nat, x: nat)
    requires i < Pow4(Count(mask)) && k < Pow4(Count(Opposite(mask))) && x == Place(mask, i) + Place(Opposite(mask), k)
    ensures x < Pow4(|mask|) && Take(mask, x) == i && Take(Opposite(mask), x) == k
  {
    TakePlaced(mask, i, k);
  }

  lemma TermByDigits(full: Entries, mask: Mask, h: ByDigits, i: nat, j: nat, k: nat, x: nat, y: nat)
    requires ReadsDigits(full, mask, h) && x < Pow4(|mask|) && y < Pow4(|mask|)
    requires Take(mask, x) == i && Take(mask, y) == j && Take(Opposite(mask), x) == k && Take(Opposite(mask), y) == k
    ensures full(x, y) == h(i, j, k, k)
  {}

  lemma ShiftedAt(full: Entries, mask: Mask, left: nat, right: nat, k: nat, x: nat, y: nat)
    requires x == left + Place(Opposite(mask), k) && y == right + Place(Opposite(mask), k)
    ensures Shifted(full, mask, left, right)(k) == full(x, y)
  {}

  /** A product of a matrix on the kept qubits and one on the removed qubits. */
  function ProductOf(a: Entries, b: Entries): ByDigits {
    (i: nat, j: nat, k: nat, l: nat) => b(k, l).Times(a(i, j))
  }

  /** Of a product the partial trace leaves the factor on the kept qubits, multiplied by the trace of the other. */
  lemma ProductTraced(full: Entries, mask: Mask, a: Entries, b: Entries, i: nat, j: nat)
    requires ReadsDigits(full, mask, ProductOf(a, b)) && i < Pow4(Count(mask)) && j < Pow4(Count(mask))
    ensures Traced(full, mask, i, j) == Trace(Pow4(Count(Opposite(mask))), b).Times(a(i, j))
  {
    TracedByDigits(full, mask, ProductOf(a, b), i, j);
    SumTimes(Pow4(Count(Opposite(mask))), Diagonal(b), a(i, j), SameRemoved(ProductOf(a, b), i, j));
  }

  // ---------------------------------------------------------------- partialTraceProcessMatrix

  /** The matrices the partial trace is given: 4^n rows of 4^n entries. */
  predicate Square(rows: seq<seq<Complex>>, size: nat) {
    |rows| == size && forall i :: 0 <= i < size ==> |rows[i]| == size
  }

  function EntriesOf(rows: seq<seq<Complex>>): Entries {
    (i: nat, j: nat) => if i < |rows| && j < |rows[i]| then rows[i][j] else ZERO
  }

  lemma TermRead(full: seq<seq<Complex>>, mask: Mask, left: nat, right: nat, k: nat, at: nat)
    requires at == Place(Opposite(mask), k) && left + at < |full| && right + at < |full[left + at]|
    ensures var terms := Shifted(EntriesOf(full), mask, left, right);
            terms(k) == full[left + at][right + at] && Sum(k + 1, terms) == Sum(k, terms).Plus(full[left + at][right + at])
  {}

  /** The innermost loop: the sum over the digits on the removed qubits. */
  method SumRemoved(full: seq<seq<Complex>>, n: nat, ghost mask: Mask, removed: seq<nat>, left: nat, right: nat, size: nat)
    returns (entry: Complex)
    requires Square(full, Pow4(n)) && |mask| == n && IndexSet(removed, n) && MaskOf(n, removed) == Opposite(mask)
    requires forall k: nat :: k < size ==> left + Place(Opposite(mask), k) < Pow4(n) && right + Place(Opposite(mask), k) < Pow4(n)
    ensures entry == Sum(size, Shifted(EntriesOf(full), mask, left, right))
  {
    entry := ZERO;
    for k := 0 to size
      invariant entry == Sum(k, Shifted(EntriesOf(full), mask, left, right))
    {
      var indexOut := GetIndex(n, removed, k);
      TermRead(full, mask, left, right, k, indexOut);
      entry := entry.Plus(full[left + indexOut][right + indexOut]);
    }
  }

  method TracedEntry(full: seq<seq<Complex>>, n: nat, kept: seq<nat>, removed: seq<nat>, i: nat, j: nat) returns (entry: Complex)
    requires Square(full, Pow4(n)) && IndexSet(kept, n) && IndexSet(removed, n)
    requires MaskOf(n, removed) == Opposite(MaskOf(n, kept)) && |kept| == Count(MaskOf(n, kept))
    requires i < Pow4(|kept|) && j < Pow4(|kept|)
    ensures entry == Traced(EntriesOf(full), MaskOf(n, kept), i, j)
  {
    ghost var mask := MaskOf(n, kept);
    var indexI := GetIndex(n, kept, i);
    var indexJ := GetIndex(n, kept, j);
    SizeProduct(mask, n, |kept|, Count(Opposite(mask)));
    Quotient(|full|, Pow4(|kept|), Pow4(Count(Opposite(mask))));
    var sumSize := |full| / Pow4(|kept|);
    forall k: nat | k < sumSize
      ensures indexI + Place(Opposite(mask), k) < Pow4(n) && indexJ + Place(Opposite(mask), k) < Pow4(n)
    {
      TakePlaced(mask, i, k);
      TakePlaced(mask, j, k);
    }
    entry := SumRemoved(full, n, mask, removed, indexI, indexJ, sumSize);
  }

  method FillRow(result: array2<Complex>, i: nat, full: seq<seq<Complex>>, n: nat, kept: seq<nat>, removed: seq<nat>)
    requires Square(full, Pow4(n)) && IndexSet(kept, n) && IndexSet(removed, n)
    requires MaskOf(n, removed) == Opposite(MaskOf(n, kept)) && |kept| == Count(MaskOf(n, kept))
    requires result.Length0 == result.Length1 == Pow4(|kept|) && i < Pow4(|kept|)
    modifies result
    ensures forall b: nat :: b < Pow4(|kept|) ==> result[i, b] == TracedEntries(EntriesOf(full), MaskOf(n, kept))(i, b)
    ensures forall a: nat, b: nat :: a < Pow4(|kept|) && b < Pow4(|kept|) && a != i ==> result[a, b] == old(result[a, b])
  {
    ghost var want := TracedEntries(EntriesOf(full), MaskOf(n, kept));
    for j := 0 to Pow4(|kept|)
      invariant forall b: nat :: b < j ==> result[i, b] == want(i, b)
      invariant forall a: nat, b: nat :: a < Pow4(|kept|) && b < Pow4(|kept|) && a != i ==> result[a, b] == old(result[a, b])
    {
      var entry := TracedEntry(full, n, kept, removed, i, j);
      result[i, j] := entry;
    }
  }

  method PartialTraceProcessMatrix(full: seq<seq<Complex>>, n: nat, kept: seq<nat>, removed: seq<nat>)
    returns (result: array2<Complex>)
    requires Square(full, Pow4(n)) && IndexSet(kept, n) && IndexSet(removed, n)
    requires MaskOf(n, removed) == Opposite(MaskOf(n, kept)) && |kept| == Count(MaskOf(n, kept))
    ensures result.Length0 == result.Length1 == Pow4(|kept|)
    ensures forall i: nat, j: nat :: i < Pow4(|kept|) && j < Pow4(|kept|) ==>
              result[i, j] == TracedEntries(EntriesOf(full), MaskOf(n, kept))(i, j)
  {
    var size := Pow4(|kept|);
    result := new Complex[size, size]((i, j) => ZERO);
    ghost var want := TracedEntries(EntriesOf(full), MaskOf(n, kept));
    for i := 0 to size
      invariant forall a: nat, b: nat :: a < i && b < size ==> result[a, b] == want(a, b)
    {
      FillRow(result, i, full, n, kept, removed);
    }
  }

  /** The diagonal of the result adds up to the trace of the full matrix. */
  lemma DiagonalAddsUp(full: Entries, mask: Mask, diagonal: nat -> Complex)
    requires forall i: nat :: i < Pow4(Count(mask)) ==> diagonal(i) == TracedEntries(full, mask)(i, i)
    ensures Sum(Pow4(Count(mask)), diagonal) == Trace(Pow4(|mask|), full)
  {
    SumSame(Pow4(Count(mask)), diagonal, Diagonal(TracedEntries(full, mask)));
    TraceKept(full, mask);
  }

  /** The two public forms: which qubits to keep, or which to remove. The trace is kept. */
  method PartialTraceKeep(full: seq<seq<Complex>>, n: nat, indices: seq<nat>) returns (result: array2<Complex>)
    requires Square(full, Pow4(n)) && IndexSet(indices, n)
    ensures var mask := MaskOf(n, indices);
            && result.Length0 == result.Length1 == Pow4(Count(mask))
            && forall i: nat, j: nat :: i < Pow4(Count(mask)) && j < Pow4(Count(mask)) ==>
                 result[i, j] == TracedEntries(EntriesOf(full), mask)(i, j)
    ensures forall diagonal: nat -> Complex ::
              (forall i: nat :: i < result.Length0 ==> diagonal(i) == result[i, i]) ==>
                Sum(result.Length0, diagonal) == Trace(Pow4(n), EntriesOf(full))
  {
    var removed := GetComplementarySet(n, indices);
    CountMembers(n, indices);
    result := PartialTraceProcessMatrix(full, n, indices, removed);
    forall diagonal: nat -> Complex | forall i: nat :: i < result.Length0 ==> diagonal(i) == result[i, i]
      ensures Sum(result.Length0, diagonal) == Trace(Pow4(n), EntriesOf(full))
    {
      DiagonalAddsUp(EntriesOf(full), MaskOf(n, indices), diagonal);
    }
  }

  method PartialTraceRemove(full: seq<seq<Complex>>, n: nat, indices: seq<nat>) returns (result: array2<Complex>)
    requires Square(full, Pow4(n)) && IndexSet(indices, n)
    ensures var mask := Opposite(MaskOf(n, indices));
            && result.Length0 == result.Length1 == Pow4(Count(mask))
            && forall i: nat, j: nat :: i < Pow4(Count(mask)) && j < Pow4(Count(mask)) ==>
                 result[i, j] == TracedEntries(EntriesOf(full), mask)(i, j)
    ensures forall diagonal: nat -> Complex ::
              (forall i: nat :: i < result.Length0 ==> diagonal(i) == result[i, i]) ==>
                Sum(result.Length0, diagonal) == Trace(Pow4(n), EntriesOf(full))
  {
    var kept := GetComplementarySet(n, indices);
    CountMembers(n, kept);
    assert Opposite(Opposite(MaskOf(n, indices))) == MaskOf(n, indices);
    result := PartialTraceProcessMatrix(full, n, kept, indices);
    forall diagonal: nat -> Complex | forall i: nat :: i < result.Length0 ==> diagonal(i) == result[i, i]
      ensures Sum(result.Length0, diagonal) == Trace(Pow4(n), EntriesOf(full))
    {
      DiagonalAddsUp(EntriesOf(full), Opposite(MaskOf(n, indices)), diagonal);
    }
  }
}
