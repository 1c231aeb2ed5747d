/** Multiplication by shifted, controlled additions. */
module Multiplication {
  import opened Registers
  import opened Gates
  import opened RippleAdder
  import opened Controls
  import opened ControlledAddition
  import opened Inverse

  /** What i additions leave in a result register that started at 0: (a + c) times the low i bits of b. */
  function PartialProduct(s: State, a: seq<Qubit>, b: seq<Qubit>, c: Qubit, i: nat): nat
    requires i <= |b|
  {
    (Val(s, a) + Bit(s, c)) * Val(s, b[..i])
  }

  /** (a + c) * b, where c is the ancilla's bit. */
  function Product(s: State, a: seq<Qubit>, b: seq<Qubit>, c: Qubit): nat {
    (Val(s, a) + Bit(s, c)) * Val(s, b)
  }

  function Square(a: nat): nat {
    a * a
  }

  lemma LastPartialProduct(s: State, a: seq<Qubit>, b: seq<Qubit>, c: Qubit)
    ensures PartialProduct(s, a, b, c, |b|) == Product(s, a, b, c)
  {
    assert b[..|b|] == b;
  }

  ghost predicate Wired(a: seq<Qubit>, b: seq<Qubit>, result: seq<Qubit>, c: Qubit) {
    && |a| == |b| && |result| == 2 * |a|
    && Distinct(a) && Distinct(b) && Distinct(result)
    && Disjoint(a, b) && Disjoint(a, result) && Disjoint(b, result)
    && c !in a && c !in b && c !in result
  }

  /** Adding to a slice that has room for the sum adds the shifted number to the whole register. */
  lemma SliceAdds(t: State, lo: seq<Qubit>, mid: seq<Qubit>, hi: seq<Qubit>, x: nat, sum: nat, whole: int)
    requires Distinct(lo + mid + hi) && Distinct(mid)
    requires sum == Val(t, mid) + x && sum < Pow2(|mid|)
    requires whole == Val(t, lo + mid + hi) + Pow2(|lo|) * x
    ensures Write(t, mid, sum) == Write(t, lo + mid + hi, whole)
  {
    var u, reg := Write(t, mid, sum), lo + mid + hi;
    ReadBack(t, mid, sum);
    assert Disjoint(mid, lo) && Disjoint(mid, hi) by { PartsDisjoint(lo, mid, hi); }
    ValAgree(u, t, lo);
    ValAgree(u, t, hi);
    ThreePartValue(t, lo, mid, hi);
    ThreePartValue(u, lo, mid, hi);
    ScaledSum(Pow2(|lo|), Val(t, mid), x, Pow2(|mid|) * Val(t, hi));
    HoldsOwn(u, reg);
    forall q | q !in reg
      ensures q in u <==> q in t
    {
      assert q !in lo + mid;
    }
    WriteUnique(t, u, reg, whole);
  }

  lemma ScaledSum(p: nat, v: nat, x: nat, y: nat)
    ensures p * (v + x + y) == p * (v + y) + p * x
  {}

  lemma ThreePartValue(s: State, lo: seq<Qubit>, mid: seq<Qubit>, hi: seq<Qubit>)
    ensures Val(s, lo + mid + hi) == Val(s, lo) + Pow2(|lo|) * (Val(s, mid) + Pow2(|mid|) * Val(s, hi))
  {
    assert lo + mid + hi == lo + (mid + hi);
    ValConcat(s, lo, mid + hi);
    ValConcat(s, mid, hi);
  }

  lemma PartsDisjoint(lo: seq<Qubit>, mid: seq<Qubit>, hi: seq<Qubit>)
    requires Distinct(lo + mid + hi)
    ensures Disjoint(mid, lo) && Disjoint(mid, hi)
  {
    var reg := lo + mid + hi;
    forall k, j | 0 <= k < |mid| && 0 <= j < |lo|
      ensures mid[k] != lo[j]
    {
      assert reg[j] == lo[j] && reg[|lo| + k] == mid[k];
    }
    forall k, j | 0 <= k < |mid| && 0 <= j < |hi|
      ensures mid[k] != hi[j]
    {
      assert reg[|lo| + |mid| + j] == hi[j] && reg[|lo| + k] == mid[k];
    }
  }

  /** The product so far leaves the top bit of the next slice free. */
  lemma RoomInSlice(p: nat, q: nat, A: nat, B: nat, lo: nat, upper: nat)
    requires A <= p && B < q && p >= 1
    requires A * B == lo + q * upper
    ensures upper < p
  {
    MulMonotone(B, A, p);
    MulMonotone(p, B + 1, q);
    if upper >= p { MulMonotone(q, p, upper); }
  }

  /** One more bit of the multiplier. */
  lemma NextProduct(s: State, a: seq<Qubit>, b: seq<Qubit>, c: Qubit, i: nat)
    requires i < |b|
    ensures PartialProduct(s, a, b, c, i + 1)
         == PartialProduct(s, a, b, c, i) + if b[i] in s then Pow2(i) * (Val(s, a) + Bit(s, c)) else 0
  {
    assert b[..i + 1] == b[..i] + [b[i]];
    ValSnoc(s, b[..i], b[i]);
    AddsFactor(Val(s, a) + Bit(s, c), Val(s, b[..i]), Val(s, b[..i + 1]), Pow2(i), b[i] in s);
  }

  lemma AddsFactor(x: nat, y: nat, y': nat, p: nat, bit: bool)
    requires y' == y + if bit then p else 0
    ensures x * y' == x * y + if bit then p * x else 0
  {}

  lemma ProductBelow(x: nat, y: nat, p: nat, q: nat)
    requires x <= p && y < q && p >= 1
    ensures x * y < p * q
  {
    MulMonotone(y, x, p);
    MulMonotone(p, y + 1, q);
  }

  /** One controlled addition to the slice at i turns the i-th partial product into the next one. */
  lemma AdditionStep(a: seq<Qubit>, b: seq<Qubit>, result: seq<Qubit>, c: Qubit, i: nat, s: State, t: State, mid: seq<Qubit>)
    requires Wired(a, b, result, c) && i < |b|
    requires t == Write(s, result, PartialProduct(s, a, b, c, i)) && Val(s, result) == 0
    requires mid == result[i..i + |a| + 1] && Distinct(mid)
    ensures (if b[i] in t then Added(t, c, a, mid) else t) == Write(s, result, PartialProduct(s, a, b, c, i + 1))
  {
    assert b[i] in b;
    NextProduct(s, a, b, c, i);
    if b[i] in s {
      SetBitAdds(a, b, result, c, i, s, t, mid, result[..i], result[i + |a| + 1..]);
      WriteWrite(s, result, PartialProduct(s, a, b, c, i), PartialProduct(s, a, b, c, i + 1));
    }
  }

  lemma SetBitAdds(a: seq<Qubit>, b: seq<Qubit>, result: seq<Qubit>, c: Qubit, i: nat, s: State, t: State,
                   mid: seq<Qubit>, lo: seq<Qubit>, hi: seq<Qubit>)
    requires Wired(a, b, result, c) && i < |b| && b[i] in s
    requires t == Write(s, result, PartialProduct(s, a, b, c, i)) && Val(s, result) == 0
    requires result == lo + mid + hi && |lo| == i && |mid| == |a| + 1 && Distinct(mid)
    ensures Added(t, c, a, mid) == Write(t, result, PartialProduct(s, a, b, c, i + 1))
  {
    NextProduct(s, a, b, c, i);
    ProductFits(s, a, b, c, i);
    ReadBack(s, result, PartialProduct(s, a, b, c, i));
    ValAgree(t, s, a);
    SliceHasRoom(a, b, c, i, s, t, lo, mid, hi);
    SliceAdds(t, lo, mid, hi, Val(s, a) + Bit(s, c), Total(t, c, a, mid), PartialProduct(s, a, b, c, i + 1));
  }

  lemma SliceHasRoom(a: seq<Qubit>, b: seq<Qubit>, c: Qubit, i: nat, s: State, t: State,
                     lo: seq<Qubit>, mid: seq<Qubit>, hi: seq<Qubit>)
    requires i < |b| && |lo| == i && |mid| == |a| + 1
    requires Val(t, lo + mid + hi) == PartialProduct(s, a, b, c, i)
    ensures Val(t, mid) + Val(s, a) + Bit(s, c) < Pow2(|mid|)
  {
    assert lo + mid + hi == lo + (mid + hi);
    ValConcat(t, lo, mid + hi);
    PrefixAtMost(t, mid, hi);
    ValBound(s, a);
    ValBound(s, b[..i]);
    RoomInSlice(Pow2(|a|), Pow2(i), Val(s, a) + Bit(s, c), Val(s, b[..i]), Val(t, lo), Val(t, mid + hi));
    assert Pow2(|mid|) == 2 * Pow2(|a|);
  }

  lemma PrefixAtMost(s: State, reg: seq<Qubit>, more: seq<Qubit>)
    ensures Val(s, reg) <= Val(s, reg + more)
  {
    ValConcat(s, reg, more);
    assert Pow2(|reg|) * Val(s, more) >= 0;
  }

  lemma ProductFits(s: State, a: seq<Qubit>, b: seq<Qubit>, c: Qubit, i: nat)
    requires i <= |b| == |a|
    ensures PartialProduct(s, a, b, c, i) < Pow2(2 * |a|)
  {
    ValBound(s, a);
    ValBound(s, b[..i]);
    Pow2Monotone(i, |a|);
    Pow2Add(|a|, |a|);
    ProductBelow(Val(s, a) + Bit(s, c), Val(s, b[..i]), Pow2(|a|), Pow2(|a|));
  }

  // ---------------------------------------------------------------- Multiplication::expand

  /**
   * What i additions leave of any state: a + c is added to the slice of the result at every set bit of b. A
   * carry out of a slice is lost, as it can be if the result register was not clean.
   */
  ghost function Multiplied(s: State, a: seq<Qubit>, b: seq<Qubit>, result: seq<Qubit>, c: Qubit, i: nat): State
    requires Wired(a, b, result, c) && i <= |b|
  {
    if i == 0 then s
    else
      var t := Multiplied(s, a, b, result, c, i - 1);
      if b[i - 1] in s then Added(t, c, a, Slice(a, result, i - 1)) else t
  }

  function Slice(a: seq<Qubit>, result: seq<Qubit>, i: nat): (mid: seq<Qubit>)
    requires Distinct(result) && i + |a| < |result|
    ensures Distinct(mid)
  {
    result[i..i + |a| + 1]
  }

  /** On a clean result register no carry is lost, and the product stands there in the end. */
  lemma {:induction false} MultipliedClean(s: State, a: seq<Qubit>, b: seq<Qubit>, result: seq<Qubit>, c: Qubit, i: nat)
    requires Wired(a, b, result, c) && i <= |b| && Val(s, result) == 0
    ensures Multiplied(s, a, b, result, c, i) == Write(s, result, PartialProduct(s, a, b, c, i))
  {
    if i == 0 {
      assert PartialProduct(s, a, b, c, 0) == 0;
      WriteBack(s, result);
    } else {
      var t := Multiplied(s, a, b, result, c, i - 1);
      MultipliedClean(s, a, b, result, c, i - 1);
      assert b[i - 1] in b;
      AdditionStep(a, b, result, c, i - 1, s, t, Slice(a, result, i - 1));
    }
  }

  lemma SliceInside(a: seq<Qubit>, result: seq<Qubit>, i: nat)
    requires Distinct(result) && i + |a| < |result|
    ensures forall q :: q in Slice(a, result, i) ==> q in result
  {}

  lemma {:induction false} MultipliedKeeps(s: State, a: seq<Qubit>, b: seq<Qubit>, result: seq<Qubit>, c: Qubit, i: nat)
    requires Wired(a, b, result, c) && i <= |b|
    ensures AgreeOff(Multiplied(s, a, b, result, c, i), s, result)
  {
    if i > 0 {
      MultipliedKeeps(s, a, b, result, c, i - 1);
      SliceInside(a, result, i - 1);
    }
  }

  // ---------------------------------------------------------------- on a result register that is not clean

  /** Round i adds to its slice and the carry out of the slice is lost. */
  ghost predicate Lost(s: State, a: seq<Qubit>, b: seq<Qubit>, result: seq<Qubit>, c: Qubit, i: nat)
    requires Wired(a, b, result, c) && i < |b|
  {
    b[i] in s && Total(Multiplied(s, a, b, result, c, i), c, a, Slice(a, result, i)) >= Pow2(|a| + 1)
  }

  /** What the carries lost in the first i rounds are worth. */
  ghost function LostSum(s: State, a: seq<Qubit>, b: seq<Qubit>, result: seq<Qubit>, c: Qubit, i: nat): nat
    requires Wired(a, b, result, c) && i <= |b|
  {
    if i == 0 then 0
    else LostSum(s, a, b, result, c, i - 1) + if Lost(s, a, b, result, c, i - 1) then Pow2(|a| + i) else 0
  }

  /** Adding to a slice with or without room: a carry out of it is missing from the whole register. */
  lemma SliceAddsMod(t: State, u: State, lo: seq<Qubit>, mid: seq<Qubit>, hi: seq<Qubit>, x: nat, sum: nat)
    requires Distinct(lo + mid + hi) && Distinct(mid) && u == Write(t, mid, sum)
    requires sum == Val(t, mid) + x && sum < 2 * Pow2(|mid|)
    ensures Val(u, lo + mid + hi) + (if sum >= Pow2(|mid|) then Pow2(|lo| + |mid|) else 0)
         == Val(t, lo + mid + hi) + Pow2(|lo|) * x
  {
    var carry := if sum >= Pow2(|mid|) then Pow2(|mid|) else 0;
    PartsDisjoint(lo, mid, hi);
    WriteCarries(t, mid, sum, carry);
    ValAgree(u, t, lo);
    ValAgree(u, t, hi);
    ThreePartValue(t, lo, mid, hi);
    ThreePartValue(u, lo, mid, hi);
    Pow2Add(|lo|, |mid|);
    CarryBalance(Pow2(|lo|), Val(t, mid), x, carry, Val(u, mid), Pow2(|mid|) * Val(t, hi));
  }

  lemma WriteCarries(t: State, mid: seq<Qubit>, sum: nat, carry: nat)
    requires Distinct(mid) && sum < 2 * Pow2(|mid|) && carry == if sum >= Pow2(|mid|) then Pow2(|mid|) else 0
    ensures Val(Write(t, mid, sum), mid) + carry == sum
  {
    WriteVal(t, mid, sum);
    ModNear(sum, Pow2(|mid|), sum - carry);
  }

  lemma CarryBalance(p: nat, v: nat, x: nat, carry: nat, w: nat, y: nat)
    requires w + carry == v + x
    ensures p * (w + y) + p * carry == p * (v + y) + p * x
  {
    assert p * (w + y) + p * carry == p * (w + y + carry);
    assert p * (v + y) + p * x == p * (v + y + x);
  }

  lemma TotalBelow(t: State, a: seq<Qubit>, c: Qubit, mid: seq<Qubit>)
    requires |mid| == |a| + 1
    ensures Total(t, c, a, mid) < 2 * Pow2(|mid|)
  {
    ValBound(t, a);
    ValBound(t, mid);
    assert Pow2(|mid|) == 2 * Pow2(|a|);
  }

  /** What stands in the result register, and what was lost, is the old contents and the product so far. */
  lemma {:induction false} LostBalance(s: State, a: seq<Qubit>, b: seq<Qubit>, result: seq<Qubit>, c: Qubit, i: nat)
    requires Wired(a, b, result, c) && i <= |b|
    ensures Val(Multiplied(s, a, b, result, c, i), result) + LostSum(s, a, b, result, c, i)
         == Val(s, result) + PartialProduct(s, a, b, c, i)
  {
    if i == 0 {
      assert PartialProduct(s, a, b, c, 0) == 0;
    } else {
      LostBalance(s, a, b, result, c, i - 1);
      LostRound(s, a, b, result, c, i - 1, Multiplied(s, a, b, result, c, i - 1), Multiplied(s, a, b, result, c, i));
    }
  }

  lemma LostRound(s: State, a: seq<Qubit>, b: seq<Qubit>, result: seq<Qubit>, c: Qubit, i: nat, t: State, u: State)
    requires Wired(a, b, result, c) && i < |b|
    requires t == Multiplied(s, a, b, result, c, i) && u == Multiplied(s, a, b, result, c, i + 1)
    requires Val(t, result) + LostSum(s, a, b, result, c, i) == Val(s, result) + PartialProduct(s, a, b, c, i)
    ensures Val(u, result) + LostSum(s, a, b, result, c, i + 1) == Val(s, result) + PartialProduct(s, a, b, c, i + 1)
  {
    var add, carry := if b[i] in s then Pow2(i) * (Val(s, a) + Bit(s, c)) else 0, if Lost(s, a, b, result, c, i) then Pow2(|a| + 1 + i) else 0;
    NextProduct(s, a, b, c, i);
    if b[i] in s { RoundBalance(s, a, b, result, c, i, t); }
    AddUp(Val(t, result), LostSum(s, a, b, result, c, i), Val(s, result), PartialProduct(s, a, b, c, i), add, Val(u, result), carry,
          PartialProduct(s, a, b, c, i + 1));
  }

  lemma AddUp(v: int, lost: int, was: int, p: int, add: int, v': int, carry: int, p': int)
    requires v + lost == was + p && v' + carry == v + add && p' == p + add
    ensures v' + (lost + carry) == was + p'
  {}

  lemma RoundBalance(s: State, a: seq<Qubit>, b: seq<Qubit>, result: seq<Qubit>, c: Qubit, i: nat, t: State)
    requires Wired(a, b, result, c) && i < |b| && t == Multiplied(s, a, b, result, c, i)
    ensures var mid := Slice(a, result, i);
            Val(Added(t, c, a, mid), result) + (if Total(t, c, a, mid) >= Pow2(|a| + 1) then Pow2(|a| + 1 + i) else 0)
              == Val(t, result) + Pow2(i) * (Val(s, a) + Bit(s, c))
  {
    var lo, mid, hi := result[..i], Slice(a, result, i), result[i + |a| + 1..];
    assert result == lo + mid + hi;
    MultipliedKeeps(s, a, b, result, c, i);
    ValAgree(t, s, a);
    AddedBalance(t, a, c, lo, mid, hi);
  }

  lemma AddedBalance(t: State, a: seq<Qubit>, c: Qubit, lo: seq<Qubit>, mid: seq<Qubit>, hi: seq<Qubit>)
    requires Distinct(lo + mid + hi) && Distinct(mid) && |mid| == |a| + 1
    ensures Val(Added(t, c, a, mid), lo + mid + hi)
              + (if Total(t, c, a, mid) >= Pow2(|a| + 1) then Pow2(|lo| + |mid|) else 0)
         == Val(t, lo + mid + hi) + Pow2(|lo|) * (Val(t, a) + Bit(t, c))
  {
    TotalBelow(t, a, c, mid);
    SliceAddsMod(t, Added(t, c, a, mid), lo, mid, hi, Val(t, a) + Bit(t, c), Total(t, c, a, mid));
  }

  /** The lost carries are different powers of two: nothing makes up for any of them. */
  lemma {:induction false} LostBound(s: State, a: seq<Qubit>, b: seq<Qubit>, result: seq<Qubit>, c: Qubit, i: nat)
    requires Wired(a, b, result, c) && i <= |b|
    ensures LostSum(s, a, b, result, c, i) + Pow2(|a| + 1) <= Pow2(|a| + 1 + i)
    ensures LostSum(s, a, b, result, c, i) == 0 <==> forall k :: 0 <= k < i ==> !Lost(s, a, b, result, c, k)
  {
    if i > 0 { LostBound(s, a, b, result, c, i - 1); }
  }

  /**
   * On any result register the circuit adds (a + c) * b to it, modulo its size, if and only if no round
   * but the last loses a carry.
   */
  lemma MultipliedExact(s: State, a: seq<Qubit>, b: seq<Qubit>, result: seq<Qubit>, c: Qubit)
    requires Wired(a, b, result, c)
    ensures Multiplied(s, a, b, result, c, |b|) == Write(s, result, Val(s, result) + Product(s, a, b, c))
       <==> forall i :: 0 <= i < |b| - 1 ==> !Lost(s, a, b, result, c, i)
  {
    var n, t := |b|, Multiplied(s, a, b, result, c, |b|);
    BalanceInAll(s, a, b, result, c, t);
    MultipliedKeeps(s, a, b, result, c, n);
    if n > 0 {
      LostInAll(s, a, b, result, c);
      ExactWithout(s, t, result, Val(s, result) + Product(s, a, b, c), LostSum(s, a, b, result, c, n - 1),
                   LostSum(s, a, b, result, c, n), |a| + n);
    } else {
      KeptWrite(s, t, result);
    }
  }

  /** The carry of the last round has the size of the register. */
  lemma LostInAll(s: State, a: seq<Qubit>, b: seq<Qubit>, result: seq<Qubit>, c: Qubit)
    requires Wired(a, b, result, c) && |b| > 0
    ensures var lost, all := LostSum(s, a, b, result, c, |b| - 1), LostSum(s, a, b, result, c, |b|);
            && lost < Pow2(|a| + |b|) && (all == lost || all == lost + Pow2(|a| + |b|))
            && (lost == 0 <==> forall i :: 0 <= i < |b| - 1 ==> !Lost(s, a, b, result, c, i))
  {
    LostBound(s, a, b, result, c, |b| - 1);
  }

  lemma BalanceInAll(s: State, a: seq<Qubit>, b: seq<Qubit>, result: seq<Qubit>, c: Qubit, t: State)
    requires Wired(a, b, result, c) && t == Multiplied(s, a, b, result, c, |b|)
    ensures Val(t, result) + LostSum(s, a, b, result, c, |b|) == Val(s, result) + Product(s, a, b, c)
  {
    LostBalance(s, a, b, result, c, |b|);
    LastPartialProduct(s, a, b, c);
  }

  /** What has the size of the register is not missed when it is lost; anything smaller is. */
  lemma ExactWithout(s: State, t: State, reg: seq<Qubit>, whole: nat, lost: nat, all: nat, size: nat)
    requires Distinct(reg) && AgreeOff(t, s, reg) && size == |reg| && Val(t, reg) + all == whole
    requires lost < Pow2(size) && (all == lost || all == lost + Pow2(size))
    ensures t == Write(s, reg, whole) <==> lost == 0
  {
    ValBound(t, reg);
    KeptWrite(s, t, reg);
    SameResidue(Val(t, reg), lost, Pow2(size), whole);
    WriteResidue(s, reg, Val(t, reg), whole);
  }

  lemma KeptWrite(s: State, t: State, reg: seq<Qubit>)
    requires Distinct(reg) && AgreeOff(t, s, reg)
    ensures t == Write(s, reg, Val(t, reg))
  {
    HoldsOwn(t, reg);
    WriteUnique(s, t, reg, Val(t, reg));
  }

  lemma SameResidue(v: nat, lost: nat, size: nat, whole: nat)
    requires v < size && lost < size && (whole == v + lost || whole == v + lost + size)
    ensures whole % size == v <==> lost == 0
  {
    var rest := if v + lost < size then v + lost else v + lost - size;
    var k := (if whole == v + lost then 0 else 1) + if v + lost < size then 0 else 1;
    assert whole == size * k + rest;
    ModUnique(whole, size, k, rest);
  }

  lemma WriteResidue(s: State, reg: seq<Qubit>, v: nat, w: nat)
    requires Distinct(reg) && v < Pow2(|reg|)
    ensures Write(s, reg, v) == Write(s, reg, w) <==> w % Pow2(|reg|) == v
  {
    var t, u := Write(s, reg, v), Write(s, reg, w);
    ReadBack(s, reg, v);
    WriteVal(s, reg, w);
    KeptWrite(s, u, reg);
  }

  ghost predicate OffWires(off: seq<Qubit>, a: seq<Qubit>, b: seq<Qubit>, result: seq<Qubit>, c: Qubit) {
    Disjoint(off, a) && Disjoint(off, b) && Disjoint(off, result) && c !in off
  }

  /** Qubits outside the registers make no difference to the multiplication. */
  lemma {:induction false} MultipliedApart(s: State, a: seq<Qubit>, b: seq<Qubit>, result: seq<Qubit>, c: Qubit, i: nat,
                                           off: seq<Qubit>)
    requires Wired(a, b, result, c) && i <= |b| && OffWires(off, a, b, result, c)
    ensures Multiplied(Complement(s, off), a, b, result, c, i) == Complement(Multiplied(s, a, b, result, c, i), off)
  {
    if i > 0 {
      var t := Multiplied(s, a, b, result, c, i - 1);
      MultipliedApart(s, a, b, result, c, i - 1, off);
      assert b[i - 1] in b;
      AddedApart(t, c, a, Slice(a, result, i - 1), off);
    }
  }

  lemma AddedApart(t: State, c: Qubit, a: seq<Qubit>, mid: seq<Qubit>, off: seq<Qubit>)
    requires Distinct(mid) && Disjoint(off, a) && Disjoint(off, mid) && c !in off
    ensures Added(Complement(t, off), c, a, mid) == Complement(Added(t, c, a, mid), off)
  {
    var t1, total := Complement(t, off), Total(t, c, a, mid);
    ValAgree(t1, t, a);
    ValAgree(t1, t, mid);
    assert Total(t1, c, a, mid) == total;
    ComplementAround(t, off, mid, total);
    ComplementTwice(Write(t1, mid, total), off);
  }

  /** gates add as i rounds of the multiplication do. */
  ghost predicate Multiplies(gates: seq<Gate>, a: seq<Qubit>, b: seq<Qubit>, result: seq<Qubit>, c: Qubit, i: nat)
    requires Wired(a, b, result, c) && i <= |b|
  {
    forall s :: Run(gates, s) == Multiplied(s, a, b, result, c, i)
  }

  method ResultSlice(result: seq<Qubit>, i: nat, n: nat) returns (target: seq<Qubit>)
    requires i + n < |result|
    ensures target == result[i..i + n + 1]
  {
    target := [];
    var j := i;
    while j <= i + n
      invariant i <= j <= i + n + 1
      invariant target == result[i..j]
    {
      target := target + [result[j]];
      j := j + 1;
    }
  }

  lemma SliceWired(a: seq<Qubit>, b: seq<Qubit>, result: seq<Qubit>, c: Qubit, i: nat, mid: seq<Qubit>)
    requires Wired(a, b, result, c) && i < |b| && mid == result[i..i + |a| + 1]
    ensures RippleAdder.Accepts(a, mid, c, false) && Distinct(mid)
    ensures Disjoint(a, [b[i]] + []) && Disjoint(mid, [b[i]] + []) && c !in [b[i]] + []
    ensures Consistent([b[i]], []) && QubitSet(mid) <= QubitSet(result)
    ensures SumTarget(a, mid, true, false) == mid
  {
    assert b[i] in b && [b[i]] + [] == [b[i]];
    forall q | q in mid
      ensures q in result
    {}
    assert mid[..|a|] + [mid[|a|]] == mid;
  }

  /** One iteration: a controlled addition to the slice at i. */
  method MultiplyStep(sofar: seq<Gate>, a: seq<Qubit>, b: seq<Qubit>, result: seq<Qubit>, c: Qubit, i: nat)
    returns (gates: seq<Gate>)
    requires Wired(a, b, result, c) && i < |b|
    requires Multiplies(sofar, a, b, result, c, i) && Tame(sofar, {c} + QubitSet(a) + QubitSet(result))
    ensures Multiplies(gates, a, b, result, c, i + 1) && Tame(gates, {c} + QubitSet(a) + QubitSet(result))
  {
    var target := ResultSlice(result, i, |a|);
    SliceWired(a, b, result, c, i, target);
    var more := BuildControlledAddition(a, target, c, [b[i]], [], false);
    gates := sofar + more;
    forall s
      ensures Run(gates, s) == Multiplied(s, a, b, result, c, i + 1)
    {
      RunConcat(sofar, more, s);
      MultipliedKeeps(s, a, b, result, c, i);
      assert b[i] in b;
      assert Enabled(Run(sofar, s), [b[i]], []) <==> b[i] in s;
    }
    TameMore(more, {c} + QubitSet(a) + QubitSet(target) + QubitSet([]), {c} + QubitSet(a) + QubitSet(result));
    TameConcat(sofar, more, {c} + QubitSet(a) + QubitSet(result));
  }

  lemma TameMore(gs: seq<Gate>, small: set<Qubit>, large: set<Qubit>)
    requires Tame(gs, small) && small <= large
    ensures Tame(gs, large)
  {}

  /** On every state the rounds of the multiplication; with a clean result register, result := (a + c) * b. */
  method BuildMultiplication(a: seq<Qubit>, b: seq<Qubit>, result: seq<Qubit>, c: Qubit) returns (gates: seq<Gate>)
    requires Wired(a, b, result, c)
    ensures forall s :: Run(gates, s) == Multiplied(s, a, b, result, c, |b|)
    ensures forall s :: Val(s, result) == 0 ==> Run(gates, s) == Write(s, result, Product(s, a, b, c))
    ensures Tame(gates, {c} + QubitSet(a) + QubitSet(result))
  {
    gates := [];
    var i := 0;
    while i < |b|
      invariant 0 <= i <= |b|
      invariant Multiplies(gates, a, b, result, c, i) && Tame(gates, {c} + QubitSet(a) + QubitSet(result))
    {
      gates := MultiplyStep(gates, a, b, result, c, i);
      i := i + 1;
    }
    forall s | Val(s, result) == 0
      ensures Multiplied(s, a, b, result, c, |b|) == Write(s, result, Product(s, a, b, c))
    {
      MultipliedClean(s, a, b, result, c, |b|);
      LastPartialProduct(s, a, b, c);
    }
  }

  method ExpandMultiplication(circuit: Composite, qubitsA: seq<Qubit>, qubitsB: seq<Qubit>, qubitsResult: seq<Qubit>,
                              ancilla: Qubit, isLSB: bool)
    requires Wired(Oriented(qubitsA, isLSB), Oriented(qubitsB, isLSB), Oriented(qubitsResult, isLSB), ancilla)
    modifies circuit
    ensures var a, b, result := Oriented(qubitsA, isLSB), Oriented(qubitsB, isLSB), Oriented(qubitsResult, isLSB);
            forall s ::
              var t, u := Run(old(circuit.instructions), s), Run(circuit.instructions, s);
              && u == Multiplied(t, a, b, result, ancilla, |b|)
              && (Val(t, result) == 0 ==> u == Write(t, result, Product(t, a, b, ancilla)))
  {
    var a, b, result := Oriented(qubitsA, isLSB), Oriented(qubitsB, isLSB), Oriented(qubitsResult, isLSB);
    var gates := BuildMultiplication(a, b, result, ancilla);
    ghost var before := circuit.instructions;
    circuit.AddInstructions(gates);
    forall s
      ensures Run(circuit.instructions, s) == Run(gates, Run(before, s))
    {
      RunConcat(before, gates, s);
    }
  }

  // ---------------------------------------------------------------- ControlledMultiplication::expand

  /** Multiplication when enabled and nothing otherwise, on every state. */
  lemma GuardedMultiplies(a: seq<Qubit>, b: seq<Qubit>, result: seq<Qubit>, c: Qubit, on: seq<Qubit>, off: seq<Qubit>,
                          body: seq<Gate>, s: State)
    requires Wired(a, b, result, c) && Consistent(on, off) && OffWires(off, a, b, result, c)
    requires Multiplies(body, a, b, result, c, |b|)
    ensures Run(Guarded(on, off, body, [Block(body)]), s)
         == if Enabled(s, on, off) then Multiplied(s, a, b, result, c, |b|) else s
  {
    MultipliedApart(s, a, b, result, c, |b|, off);
    GuardedRuns(on, off, body, s);
  }

  method ExpandControlledMultiplication(circuit: Composite, qubitsA: seq<Qubit>, qubitsB: seq<Qubit>,
                                        qubitsResult: seq<Qubit>, ancilla: Qubit, on: seq<Qubit>, off: seq<Qubit>, isLSB: bool)
    requires Wired(Oriented(qubitsA, isLSB), Oriented(qubitsB, isLSB), Oriented(qubitsResult, isLSB), ancilla)
    requires Consistent(on, off)
    requires OffWires(off, Oriented(qubitsA, isLSB), Oriented(qubitsB, isLSB), Oriented(qubitsResult, isLSB), ancilla)
    modifies circuit
    ensures var a, b, result := Oriented(qubitsA, isLSB), Oriented(qubitsB, isLSB), Oriented(qubitsResult, isLSB);
            forall s ::
              var t, u := Run(old(circuit.instructions), s), Run(circuit.instructions, s);
              && u == (if Enabled(t, on, off) then Multiplied(t, a, b, result, ancilla, |b|) else t)
              && (Enabled(t, on, off) && Val(t, result) == 0 ==> u == Write(t, result, Product(t, a, b, ancilla)))
  {
    var a, b, result := Oriented(qubitsA, isLSB), Oriented(qubitsB, isLSB), Oriented(qubitsResult, isLSB);
    ghost var before := circuit.instructions;
    AddXLayer(circuit, off);
    var circ := BuildMultiplication(a, b, result, ancilla);
    AddGuarded(circuit, on, off, circ, [Block(circ)], before);
    forall s
      ensures var t := Run(before, s);
              Run(circuit.instructions, s) == if Enabled(t, on, off) then Multiplied(t, a, b, result, ancilla, |b|) else t
    {
      RunConcat(before, Guarded(on, off, circ, [Block(circ)]), s);
      GuardedMultiplies(a, b, result, ancilla, on, off, circ, Run(before, s));
    }
  }
}
