/**
 * Computational basis states and the little-endian registers that circuits read and write.
 *
 * A state is the set of qubits that hold 1. A register is a list of qubits, least significant first,
 * and Val reads the number it holds. Write stores a number modulo 2^|reg| and changes nothing else.
 * It is the only such state, so to say that a circuit ends in Write(s, reg, v) is to say what the
 * register holds afterwards and that all other qubits, ancillas and operands among them, are as they
 * were. The lemmas below read, write and split registers and move between the value and its digits.
 */
module Registers {

  type Qubit = nat

  /** A computational basis state: the finite set of qubits that hold 1. */
  type State = set<Qubit>

  function Bit(s: State, q: Qubit): nat {
    if q in s then 1 else 0
  }

  function SetBit(s: State, q: Qubit, v: bool): State {
    if v then s + {q} else s - {q}
  }

  function Flip(s: State, q: Qubit): State {
    if q in s then s - {q} else s + {q}
  }

  function Toggled(s: State, q: Qubit, c: bool): State {
    if c then Flip(s, q) else s
  }

  function Pow2(n: nat): nat
    ensures Pow2(n) >= 1
  {
    if n == 0 then 1 else 2 * Pow2(n - 1)
  }

  /** The number a register holds; its first qubit is the least significant. */
  function Val(s: State, reg: seq<Qubit>): nat {
    if reg == [] then 0 else Bit(s, reg[0]) + 2 * Val(s, reg[1..])
  }

  predicate Distinct(reg: seq<Qubit>) {
    forall i, j :: 0 <= i < j < |reg| ==> reg[i] != reg[j]
  }

  predicate Disjoint(a: seq<Qubit>, b: seq<Qubit>) {
    forall q :: q in a ==> q !in b
  }

  /** s and t hold the same bits except possibly in reg. */
  ghost predicate AgreeOff(s: State, t: State, reg: seq<Qubit>) {
    forall q :: q !in reg ==> (q in s <==> q in t)
  }

  /** The low |reg| binary digits of v stand in the register. */
  predicate Holds(s: State, reg: seq<Qubit>, v: int)
    decreases reg
  {
    reg == [] || ((reg[0] in s <==> v % 2 == 1) && Holds(s, reg[1..], v / 2))
  }

  /**
   * Stores the integer v, reduced modulo 2^|reg|, in a register: the one state that differs
   * from s in reg only and holds the low digits of v there.
   */
  ghost function Write(s: State, reg: seq<Qubit>, v: int): (t: State)
    requires Distinct(reg)
    ensures AgreeOff(t, s, reg)
    ensures Holds(t, reg, v)
  {
    WriteExists(s, reg, v);
    var t :| AgreeOff(t, s, reg) && Holds(t, reg, v);
    t
  }

  function Reverse<T>(xs: seq<T>): (r: seq<T>)
    ensures |r| == |xs|
  {
    if xs == [] then [] else Reverse(xs[1..]) + [xs[0]]
  }

  lemma {:induction false} ReverseAt<T>(xs: seq<T>)
    ensures forall k :: 0 <= k < |xs| ==> Reverse(xs)[k] == xs[|xs| - 1 - k]
  {
    if xs != [] { ReverseAt(xs[1..]); }
  }

  lemma {:induction false} ReverseSnoc<T>(xs: seq<T>, x: T)
    ensures Reverse(xs + [x]) == [x] + Reverse(xs)
  {
    if xs != [] {
      assert (xs + [x])[1..] == xs[1..] + [x];
      ReverseSnoc(xs[1..], x);
    }
  }

  /** A register in the order its caller declares: reversed unless the first qubit is the lowest. */
  function Oriented(reg: seq<Qubit>, isLSB: bool): seq<Qubit> {
    if isLSB then reg else Reverse(reg)
  }

  lemma OrientedMembers(reg: seq<Qubit>, isLSB: bool)
    ensures |Oriented(reg, isLSB)| == |reg|
    ensures forall q :: q in Oriented(reg, isLSB) <==> q in reg
    ensures Distinct(reg) ==> Distinct(Oriented(reg, isLSB))
  {
    var r := Reverse(reg);
    ReverseAt(reg);
    forall q
      ensures q in r <==> q in reg
    {
      if q in reg {
        var k :| 0 <= k < |reg| && reg[k] == q;
        assert r[|reg| - 1 - k] == q;
      }
    }
  }

  lemma OrientedSeparate(a: seq<Qubit>, b: seq<Qubit>, isLSB: bool)
    requires Distinct(a) && Distinct(b) && Disjoint(a, b)
    ensures Distinct(Oriented(a, isLSB)) && Distinct(Oriented(b, isLSB))
    ensures Disjoint(Oriented(a, isLSB), Oriented(b, isLSB))
    ensures |Oriented(a, isLSB)| == |a| && |Oriented(b, isLSB)| == |b|
    ensures forall q :: q in Oriented(a, isLSB) <==> q in a
    ensures forall q :: q in Oriented(b, isLSB) <==> q in b
  {
    OrientedMembers(a, isLSB);
    OrientedMembers(b, isLSB);
  }

  lemma SliceSeparate(a: seq<Qubit>, b: seq<Qubit>, i: nat, j: nat)
    requires Distinct(a) && Distinct(b) && Disjoint(a, b)
    requires i <= |a| && j <= |b|
    ensures Distinct(a[i..]) && Distinct(b[j..]) && Disjoint(a[i..], b[j..])
  {
    forall q | q in a[i..]
      ensures q !in b[j..]
    {
      assert q in a;
    }
  }

  // ---------------------------------------------------------------- powers of two

  lemma Double(p: int, v: int)
    ensures (2 * p) * v == 2 * (p * v)
  {}

  lemma MulMonotone(a: nat, x: int, y: int)
    requires x <= y
    ensures a * x <= a * y
  {
    assert a * (y - x) >= 0;
  }

  lemma {:induction false} Pow2Add(m: nat, n: nat)
    ensures Pow2(m + n) == Pow2(m) * Pow2(n)
  {
    if m != 0 {
      Pow2Add(m - 1, n);
      Double(Pow2(m - 1), Pow2(n));
    }
  }

  lemma {:induction false} Pow2Monotone(m: nat, n: nat)
    requires m <= n
    ensures Pow2(m) <= Pow2(n)
  {
    if m < n { Pow2Monotone(m, n - 1); }
  }

  /** Halving commutes with reduction modulo a power of two. */
  lemma HalfMod(v: int, n: nat)
    ensures v % Pow2(n + 1) == v % 2 + 2 * ((v / 2) % Pow2(n))
  {
    var p := Pow2(n);
    var w := v / 2;
    var r := v % 2 + 2 * (w % p);
    assert v == 2 * p * (w / p) + r by {
      assert w == p * (w / p) + w % p;
    }
    ModUnique(v, 2 * p, w / p, r);
  }

  lemma ModUnique(v: int, m: nat, k: int, r: int)
    requires m > 0 && v == m * k + r && 0 <= r < m
    ensures v % m == r && v / m == k
  {
    var d := v / m - k;
    assert m * d == r - v % m by {
      assert m * (v / m) == v - v % m;
      assert m * d == m * (v / m) - m * k;
    }
    if d > 0 { MulAtLeast(m, d); }
    if d < 0 { MulAtLeast(m, -d); }
  }

  lemma MulAtLeast(m: int, d: int)
    requires m >= 0 && d >= 1
    ensures m * d >= m && m * -d <= -m
  {
    assert m * d == m + m * (d - 1);
    assert m * (d - 1) >= 0;
    assert m * -d == -(m * d);
  }

  lemma ModNear(v: int, m: nat, r: int)
    requires 0 <= r < m && (v == r || v == r + m || v == r - m)
    ensures v % m == r
  {
    ModUnique(v, m, if v == r then 0 else if v == r + m then 1 else -1, r);
  }

  /** Integers that differ by a multiple of m have the same residue. */
  lemma ModShift(v: int, w: int, m: nat, k: int)
    requires m > 0 && v == w + m * k
    ensures v % m == w % m
  {
    assert v == m * (w / m + k) + w % m by { assert w == m * (w / m) + w % m; }
    ModUnique(v, m, w / m + k, w % m);
  }

  // ---------------------------------------------------------------- reading registers

  lemma {:induction false} ValBound(s: State, reg: seq<Qubit>)
    ensures Val(s, reg) < Pow2(|reg|)
  {
    if reg != [] { ValBound(s, reg[1..]); }
  }

  /** A register's value depends on that register's qubits only. */
  lemma {:induction false} ValAgree(s: State, t: State, reg: seq<Qubit>)
    requires forall q :: q in reg ==> (q in s <==> q in t)
    ensures Val(s, reg) == Val(t, reg)
  {
    if reg != [] { ValAgree(s, t, reg[1..]); }
  }

  /** Conversely the value determines every qubit of the register. */
  lemma {:induction false} ValInjective(s: State, t: State, reg: seq<Qubit>)
    requires Val(s, reg) == Val(t, reg)
    ensures forall q :: q in reg ==> (q in s <==> q in t)
  {
    if reg != [] {
      ValInjective(s, t, reg[1..]);
      assert forall q :: q in reg ==> q == reg[0] || q in reg[1..];
    }
  }

  lemma {:induction false} ValConcat(s: State, a: seq<Qubit>, b: seq<Qubit>)
    ensures Val(s, a + b) == Val(s, a) + Pow2(|a|) * Val(s, b)
  {
    if a == [] {
      assert a + b == b;
    } else {
      assert (a + b)[1..] == a[1..] + b;
      ValConcat(s, a[1..], b);
      Double(Pow2(|a| - 1), Val(s, b));
    }
  }

  lemma SingleVal(s: State, q: Qubit)
    ensures Val(s, [q]) == Bit(s, q) && Pow2(|[q]|) == 2
  {
    assert [q][0] == q && [q][1..] == [];
    assert Val(s, [q]) == Bit(s, q) + 2 * Val(s, [q][1..]);
  }

  /** One more qubit at the top of a register. */
  lemma ValSnoc(s: State, a: seq<Qubit>, q: Qubit)
    ensures Val(s, a + [q]) == Val(s, a) + if q in s then Pow2(|a|) else 0
    ensures Pow2(|a + [q]|) == 2 * Pow2(|a|)
  {
    ValConcat(s, a, [q]);
    SingleVal(s, q);
  }

  /** Clean ancillas above an operand do not change its value. */
  lemma PaddedVal(s: State, reg: seq<Qubit>, pad: seq<Qubit>)
    requires forall q :: q in pad ==> q !in s
    ensures Val(s, reg + pad) == Val(s, reg)
  {
    ValConcat(s, reg, pad);
    ZeroVal(s, pad);
  }

  lemma {:induction false} ZeroVal(s: State, reg: seq<Qubit>)
    requires forall q :: q in reg ==> q !in s
    ensures Val(s, reg) == 0
  {
    if reg != [] { ZeroVal(s, reg[1..]); }
  }

  // ---------------------------------------------------------------- writing registers

  lemma {:induction false} WriteExists(s: State, reg: seq<Qubit>, v: int)
    requires Distinct(reg)
    ensures exists t :: AgreeOff(t, s, reg) && Holds(t, reg, v)
    decreases reg
  {
    if reg == [] {
      assert AgreeOff(s, s, reg) && Holds(s, reg, v);
    } else {
      WriteExists(s, reg[1..], v / 2);
      var u :| AgreeOff(u, s, reg[1..]) && Holds(u, reg[1..], v / 2);
      var t := SetBit(u, reg[0], v % 2 == 1);
      assert reg[0] !in reg[1..];
      HoldsAgree(u, t, reg[1..], v / 2);
      forall q | q !in reg
        ensures q in t <==> q in s
      {
        assert q != reg[0] && q !in reg[1..];
      }
      assert AgreeOff(t, s, reg) && Holds(t, reg, v);
    }
  }

  lemma {:induction false} HoldsAgree(s: State, t: State, reg: seq<Qubit>, v: int)
    requires Holds(s, reg, v)
    requires forall q :: q in reg ==> (q in s <==> q in t)
    ensures Holds(t, reg, v)
    decreases reg
  {
    if reg != [] { HoldsAgree(s, t, reg[1..], v / 2); }
  }

  /** Holding the digits of v is having the value v modulo 2^|reg|. */
  lemma {:induction false} HoldsIsVal(s: State, reg: seq<Qubit>, v: int)
    ensures Holds(s, reg, v) <==> Val(s, reg) == v % Pow2(|reg|)
    decreases reg
  {
    if reg != [] {
      HoldsIsVal(s, reg[1..], v / 2);
      HalfMod(v, |reg| - 1);
    }
  }

  lemma WriteVal(s: State, reg: seq<Qubit>, v: int)
    requires Distinct(reg)
    ensures Val(Write(s, reg, v), reg) == v % Pow2(|reg|)
  {
    HoldsIsVal(Write(s, reg, v), reg, v);
  }

  /** The digits held in a register and agreement elsewhere determine the whole state. */
  lemma WriteUnique(s: State, t: State, reg: seq<Qubit>, v: int)
    requires Distinct(reg)
    requires AgreeOff(t, s, reg)
    requires Holds(t, reg, v)
    ensures t == Write(s, reg, v)
  {
    var w := Write(s, reg, v);
    HoldsSame(t, w, reg, v);
    assert forall q :: q in t <==> q in w by {
      forall q
        ensures q in t <==> q in w
      {
        if q !in reg { assert q in t <==> q in s; }
      }
    }
  }

  lemma {:induction false} HoldsSame(s: State, t: State, reg: seq<Qubit>, v: int)
    requires Holds(s, reg, v) && Holds(t, reg, v)
    ensures forall q :: q in reg ==> (q in s <==> q in t)
    decreases reg
  {
    if reg != [] {
      HoldsSame(s, t, reg[1..], v / 2);
      assert forall q :: q in reg ==> q == reg[0] || q in reg[1..];
    }
  }

  /** WriteUnique with the lowest digit and the rest of the value given separately. */
  lemma WriteBits(s: State, t: State, reg: seq<Qubit>, v: int, high: int)
    requires |reg| >= 1 && Distinct(reg)
    requires AgreeOff(t, s, reg)
    requires Bit(t, reg[0]) == v - 2 * high
    requires Holds(t, reg[1..], high)
    ensures t == Write(s, reg, v)
  {
    WriteUnique(s, t, reg, v);
  }

  lemma WriteWrite(s: State, reg: seq<Qubit>, v: int, w: int)
    requires Distinct(reg)
    ensures Write(Write(s, reg, v), reg, w) == Write(s, reg, w)
  {
    WriteUnique(s, Write(Write(s, reg, v), reg, w), reg, w);
  }

  lemma {:induction false} HoldsOwn(s: State, reg: seq<Qubit>)
    ensures Holds(s, reg, Val(s, reg))
  {
    if reg != [] { HoldsOwn(s, reg[1..]); }
  }

  lemma WriteBack(s: State, reg: seq<Qubit>)
    requires Distinct(reg)
    ensures Write(s, reg, Val(s, reg)) == s
  {
    HoldsOwn(s, reg);
    WriteUnique(s, s, reg, Val(s, reg));
  }

  lemma WriteCommute(s: State, a: seq<Qubit>, v: int, b: seq<Qubit>, w: int)
    requires Distinct(a) && Distinct(b) && Disjoint(a, b)
    ensures Write(Write(s, a, v), b, w) == Write(Write(s, b, w), a, v)
  {
    var ab := Write(Write(s, a, v), b, w);
    var sb := Write(s, b, w);
    HoldsSame(ab, sb, b, w);
    HoldsAgree(Write(s, a, v), ab, a, v);
    forall q | q !in a
      ensures q in ab <==> q in sb
    {
      if q !in b { assert q in ab <==> q in s; }
    }
    WriteUnique(sb, ab, a, v);
  }

  /** A value that fits is read back unchanged. */
  lemma ReadBack(s: State, reg: seq<Qubit>, v: nat)
    requires Distinct(reg) && v < Pow2(|reg|)
    ensures Val(Write(s, reg, v), reg) == v
  {
    WriteVal(s, reg, v);
    ModUnique(v, Pow2(|reg|), 0, v);
  }

  /** Every qubit of the register inverted. */
  function Complement(s: State, reg: seq<Qubit>): State {
    (s - set q | q in reg) + set q | q in reg && q !in s
  }

  lemma {:induction false} ComplementVal(s: State, t: State, reg: seq<Qubit>)
    requires forall q :: q in reg ==> (q in t <==> q !in s)
    ensures Val(t, reg) == Pow2(|reg|) - 1 - Val(s, reg)
  {
    if reg != [] { ComplementVal(s, t, reg[1..]); }
  }

  lemma WriteNear(s: State, reg: seq<Qubit>, v: int, r: int)
    requires Distinct(reg) && 0 <= r < Pow2(|reg|)
    requires v == r || v == r + Pow2(|reg|) || v == r - Pow2(|reg|)
    ensures Val(Write(s, reg, v), reg) == r
  {
    WriteVal(s, reg, v);
    ModNear(v, Pow2(|reg|), r);
  }

  /** A register whose value is v up to one multiple of 2^|reg| holds the digits of v. */
  lemma HoldsNear(s: State, reg: seq<Qubit>, v: int)
    requires v == Val(s, reg) || v == Val(s, reg) + Pow2(|reg|) || v == Val(s, reg) - Pow2(|reg|)
    ensures Holds(s, reg, v)
  {
    ValBound(s, reg);
    ModNear(v, Pow2(|reg|), Val(s, reg));
    HoldsIsVal(s, reg, v);
  }

  /** Holding v and holding v + 2^|reg| are the same thing. */
  lemma HoldsShift(s: State, reg: seq<Qubit>, v: int, w: int, k: int)
    requires Holds(s, reg, v) && v == w + Pow2(|reg|) * k
    ensures Holds(s, reg, w)
  {
    HoldsIsVal(s, reg, v);
    ModShift(v, w, Pow2(|reg|), k);
    HoldsIsVal(s, reg, w);
  }

  /** Every qubit of a register is on exactly when it holds its largest value. */
  lemma {:induction false} AllOnesVal(s: State, reg: seq<Qubit>)
    ensures Val(s, reg) == Pow2(|reg|) - 1 <==> forall q :: q in reg ==> q in s
  {
    ValBound(s, reg);
    if reg != [] {
      AllOnesVal(s, reg[1..]);
      ValBound(s, reg[1..]);
      assert forall q :: q in reg <==> q == reg[0] || q in reg[1..];
    }
  }

  /** What was written and what is read back differ by a multiple of 2^|reg|. */
  lemma WriteQuotient(s: State, reg: seq<Qubit>, v: int) returns (k: int)
    requires Distinct(reg)
    ensures v == Val(Write(s, reg, v), reg) + Pow2(|reg|) * k
  {
    WriteVal(s, reg, v);
    k := v / Pow2(|reg|);
  }

  /** Adding to what was written is writing the sum. */
  lemma WriteAccumulates(s: State, reg: seq<Qubit>, v: int, x: int, w: int, sum: int)
    requires Distinct(reg) && w == Val(Write(s, reg, v), reg) + x && sum == v + x
    ensures Write(Write(s, reg, v), reg, w) == Write(s, reg, sum)
  {
    var t := Write(s, reg, v);
    var k := WriteQuotient(s, reg, v);
    var u := Write(t, reg, w);
    HoldsShift(u, reg, w, sum, -k) by { assert Pow2(|reg|) * -k == -(Pow2(|reg|) * k); }
    WriteUnique(s, u, reg, sum);
  }

  lemma SlicesApart(reg: seq<Qubit>, i: nat, j: nat, k: nat, l: nat)
    requires Distinct(reg) && i <= j <= k <= l <= |reg|
    ensures Disjoint(reg[i..j], reg[k..l]) && Disjoint(reg[k..l], reg[i..j])
    ensures Distinct(reg[i..j]) && Distinct(reg[k..l])
    ensures forall q :: q in reg[i..j] || q in reg[k..l] ==> q in reg
  {}

  /** A vector of consecutive qubits of another one. */
  method CopySlice(from: seq<Qubit>, start: nat, n: nat) returns (slice: seq<Qubit>)
    requires start + n <= |from|
    ensures slice == from[start..start + n]
  {
    slice := [];
    for j := 0 to n
      invariant slice == from[start..start + j]
    {
      slice := slice + [from[start + j]];
    }
  }
}
