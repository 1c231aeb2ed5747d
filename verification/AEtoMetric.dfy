/** The weighted sum of squared amplitudes, added into the metric register. */
module AEtoMetric {
  import opened Registers
  import opened Gates
  import opened RippleAdder
  import opened ControlledSwap
  import opened Inverse
  import Multiplication
  import ControlledAddition

  /** precision[i] qubits of eval hold amplitude i; ones is the column of weight 1 in the metric register. */
  datatype Wires = Wires(eval: seq<Qubit>, precision: seq<nat>, metric: seq<Qubit>, anc: seq<Qubit>, ones: int) {

    function Offset(i: nat): nat
      requires i <= |precision|
    {
      if i == 0 then 0 else Offset(i - 1) + precision[i - 1]
    }

    /** Columns of the square that lie below the metric register. */
    function Drop(i: nat): nat
      requires i < |precision|
    {
      if i - 2 * precision[i] < -ones then 2 * precision[i] - i - ones else 0
    }

    /** The metric column that receives the lowest kept column of the square. */
    function First(i: nat): nat
      requires i < |precision|
    {
      if i - 2 * precision[i] < -ones then 0 else i - 2 * precision[i] + ones
    }

    function Kept(i: nat): nat
      requires i < |precision|
    {
      if Drop(i) <= 2 * precision[i] then 2 * precision[i] - Drop(i) else 0
    }

    /** The kept columns fit below the metric's top qubit, and the ancillas suffice for padding. */
    predicate Fits(i: nat)
      requires i < |precision|
    {
      && First(i) < |metric| && Kept(i) <= |metric| - First(i) - 1
      && Offset(i) + precision[i] <= |eval|
      && 3 * precision[i] + 1 <= |anc|
      && (|metric| - First(i) - 1 > Kept(i) ==> 3 * precision[i] + 1 + (|metric| - First(i) - 1 - Kept(i)) < |anc|)
    }

    ghost predicate Valid() {
      && Distinct(eval) && Distinct(metric) && Distinct(anc)
      && Disjoint(eval, metric) && Disjoint(eval, anc) && Disjoint(metric, anc)
      && forall i :: 0 <= i < |precision| ==> Fits(i)
    }
  }

  function Amplitude(d: Wires, i: nat): seq<Qubit>
    requires i < |d.precision| && d.Fits(i)
  {
    d.eval[d.Offset(i)..d.Offset(i) + d.precision[i]]
  }

  function Buffer(d: Wires, i: nat): seq<Qubit>
    requires i < |d.precision| && d.Fits(i)
  {
    d.anc[..d.precision[i]]
  }

  function Square(d: Wires, i: nat): seq<Qubit>
    requires i < |d.precision| && d.Fits(i)
  {
    d.anc[d.precision[i]..3 * d.precision[i]]
  }

  /** Clean ancillas that widen the addend to one qubit less than its target. */
  function Pads(d: Wires, i: nat): seq<Qubit>
    requires i < |d.precision| && d.Fits(i)
  {
    d.anc[3 * d.precision[i] + 1..3 * d.precision[i] + 1 + (|d.metric| - d.First(i) - 1 - d.Kept(i))]
  }

  /** The columns of the square that are added, with clean ancillas above them. */
  function Addend(d: Wires, i: nat): seq<Qubit>
    requires i < |d.precision| && d.Fits(i)
  {
    d.anc[3 * d.precision[i] - d.Kept(i)..3 * d.precision[i]] + Pads(d, i)
  }

  lemma AddendIsColumns(d: Wires, i: nat)
    requires i < |d.precision| && d.Fits(i)
    ensures Addend(d, i) == Square(d, i)[2 * d.precision[i] - d.Kept(i)..] + Pads(d, i)
    ensures Buffer(d, i) + Square(d, i) == d.anc[0..3 * d.precision[i]]
    ensures |Addend(d, i)| + 1 == |Target(d, i)|
  {
    var p := d.precision[i];
    assert Square(d, i)[2 * p - d.Kept(i)..] == d.anc[3 * p - d.Kept(i)..3 * p];
  }

  function Target(d: Wires, i: nat): seq<Qubit>
    requires i < |d.precision| && d.Fits(i)
  {
    d.metric[d.First(i)..]
  }

  predicate Clean(s: State, anc: seq<Qubit>) {
    forall q :: q in anc ==> q !in s
  }

  /** floor(a^2 / 2^drop) shifted to its column: what iteration i adds to the metric. */
  function Contribution(s: State, d: Wires, i: nat): nat
    requires i < |d.precision| && d.Fits(i)
  {
    Pow2(d.First(i)) * (Multiplication.Square(Val(s, Amplitude(d, i))) / Pow2(d.Drop(i)))
  }

  function WeightedSum(s: State, d: Wires, i: nat): nat
    requires i <= |d.precision| && forall k :: 0 <= k < i ==> d.Fits(k)
  {
    if i == 0 then 0 else WeightedSum(s, d, i - 1) + Contribution(s, d, i - 1)
  }

  // ---------------------------------------------------------------- value facts

  /** Leaving out the k lowest columns divides by 2^k. */
  lemma {:induction false} DropColumns(s: State, reg: seq<Qubit>, k: nat)
    requires k <= |reg|
    ensures Val(s, reg[k..]) == Val(s, reg) / Pow2(k)
  {
    var lo, hi := reg[..k], reg[k..];
    assert reg == lo + hi;
    ValConcat(s, lo, hi);
    ValBound(s, lo);
    ModUnique(Val(s, reg), Pow2(k), Val(s, hi), Val(s, lo));
  }

  /** Adding x to the top part of a register adds x, shifted, to the register. */
  lemma TopAdds(s: State, lo: seq<Qubit>, top: seq<Qubit>, x: nat, sum: int, whole: int)
    requires Distinct(lo + top) && Distinct(top) && Disjoint(top, lo)
    requires sum == Val(s, top) + x && whole == Val(s, lo + top) + Pow2(|lo|) * x
    ensures Write(s, top, sum) == Write(s, lo + top, whole)
  {
    var u := Write(s, top, sum);
    var k := WriteQuotient(s, top, sum);
    TopValue(s, u, lo, top, x, k, whole);
    HoldsOwn(u, lo + top);
    HoldsShift(u, lo + top, Val(u, lo + top), whole, -k);
    forall q | q !in lo + top
      ensures q in u <==> q in s
    {
      assert q !in top;
    }
    WriteUnique(s, u, lo + top, whole);
  }

  lemma TopValue(s: State, u: State, lo: seq<Qubit>, top: seq<Qubit>, x: nat, k: int, whole: int)
    requires AgreeOff(u, s, top) && Disjoint(top, lo)
    requires Val(s, top) + x == Val(u, top) + Pow2(|top|) * k
    requires whole == Val(s, lo + top) + Pow2(|lo|) * x
    ensures Val(u, lo + top) == whole + Pow2(|lo + top|) * -k
  {
    ValAgree(u, s, lo);
    ValConcat(s, lo, top);
    ValConcat(u, lo, top);
    Pow2Add(|lo|, |top|);
    TopQuotient(Pow2(|lo|), Pow2(|top|), Pow2(|lo + top|), Val(u, top), Val(s, top), x, k);
  }

  lemma TopQuotient(p: nat, q: nat, m: nat, u: int, v: int, x: int, k: int)
    requires v + x == u + q * k && m == p * q
    ensures p * u == p * v + p * x + m * -k
  {
    assert p * (v + x) == p * u + p * (q * k);
    assert p * (q * k) == (p * q) * k;
    assert m * -k == -(m * k);
  }

  // ---------------------------------------------------------------- one iteration on states

  /** Copying a register into a clean buffer; doing so twice does nothing. */
  lemma CopyActs(from: seq<Qubit>, to: seq<Qubit>, s: State)
    requires |from| == |to| && Distinct(to) && Disjoint(from, to)
    ensures Run(CXLayer(from, to), Run(CXLayer(from, to), s)) == s
    ensures Clean(s, to) ==> Run(CXLayer(from, to), s) == Write(s, to, Val(s, from))
  {
    var t := Run(CXLayer(from, to), s);
    CXLayerTwice(from, to, s);
    RunCXLayer(from, to, s);
    if Clean(s, to) {
      forall k | 0 <= k < |to|
        ensures to[k] in t <==> from[k] in s
      {
        assert to[k] in to;
      }
      CopiedVal(s, t, to, from);
      HoldsOwn(t, to);
      WriteUnique(s, t, to, Val(s, from));
    }
  }

  /** The parts of an iteration as functions on states. */
  ghost predicate Parts(copy: seq<Gate>, square: seq<Gate>, inverse: seq<Gate>,
                        ev: seq<Qubit>, buf: seq<Qubit>, sq: seq<Qubit>, m: Qubit)
    requires Distinct(buf) && Distinct(sq)
  {
    && (forall t :: Run(copy, Run(copy, t)) == t)
    && (forall t :: Clean(t, buf) ==> Run(copy, t) == Write(t, buf, Val(t, ev)))
    && (forall t :: Val(t, sq) == 0 ==> Run(square, t) == Write(t, sq, Multiplication.Product(t, ev, buf, m)))
    && (forall t :: Run(inverse, Run(square, t)) == t)
  }

  /** The registers of an iteration do not meet. */
  ghost predicate Apart(ev: seq<Qubit>, buf: seq<Qubit>, sq: seq<Qubit>, m: Qubit, tg: seq<Qubit>) {
    && Distinct(buf) && Distinct(sq) && Distinct(tg)
    && Disjoint(ev, buf) && Disjoint(ev, sq) && Disjoint(ev, tg)
    && Disjoint(buf, sq) && Disjoint(buf, tg) && Disjoint(sq, tg)
    && m !in buf && m !in sq && m !in tg
  }

  /** Copy and square, on clean ancillas. */
  lemma SquaredState(copy: seq<Gate>, square: seq<Gate>, inverse: seq<Gate>,
                     ev: seq<Qubit>, buf: seq<Qubit>, sq: seq<Qubit>, m: Qubit, tg: seq<Qubit>, s: State, a: nat, aa: nat)
    requires Apart(ev, buf, sq, m, tg) && Parts(copy, square, inverse, ev, buf, sq, m)
    requires Clean(s, buf) && Clean(s, sq) && m !in s
    requires a == Val(s, ev) && aa == Multiplication.Square(a) && a < Pow2(|buf|)
    ensures Run(square, Run(copy, s)) == Write(Write(s, buf, a), sq, aa)
  {
    var s1 := Write(s, buf, a);
    ValAgree(s1, s, ev);
    ReadBack(s, buf, a);
    ZeroVal(s1, sq);
    assert Multiplication.Product(s1, ev, buf, m) == aa;
  }

  /** Whatever is written to tg between squaring and unsquaring, the uncomputation leaves just that. */
  lemma UncomputesAround(copy: seq<Gate>, square: seq<Gate>, inverse: seq<Gate>,
                         ev: seq<Qubit>, buf: seq<Qubit>, sq: seq<Qubit>, m: Qubit, tg: seq<Qubit>, s: State, a: nat, v: int)
    requires Apart(ev, buf, sq, m, tg) && Parts(copy, square, inverse, ev, buf, sq, m)
    requires Clean(s, buf) && Clean(s, sq) && m !in s
    requires a == Val(s, ev) && a < Pow2(|buf|)
    ensures Run(copy, Run(inverse, Write(Run(square, Run(copy, s)), tg, v))) == Write(s, tg, v)
  {
    var u, aa := Write(s, tg, v), Multiplication.Square(a);
    ValAgree(u, s, ev);
    SquaredState(copy, square, inverse, ev, buf, sq, m, tg, s, a, aa);
    SquaredState(copy, square, inverse, ev, buf, sq, m, tg, u, a, aa);
    ThreeWrites(s, tg, v, buf, a, sq, aa);
    assert Run(square, Run(copy, u)) == Write(Run(square, Run(copy, s)), tg, v);
  }

  lemma ThreeWrites(s: State, tg: seq<Qubit>, v: int, buf: seq<Qubit>, a: int, sq: seq<Qubit>, aa: int)
    requires Distinct(tg) && Distinct(buf) && Distinct(sq) && Disjoint(tg, buf) && Disjoint(tg, sq)
    ensures Write(Write(Write(s, tg, v), buf, a), sq, aa) == Write(Write(Write(s, buf, a), sq, aa), tg, v)
  {
    WriteCommute(s, tg, v, buf, a);
    WriteCommute(Write(s, buf, a), tg, v, sq, aa);
  }

  /** The kept columns, padded with clean qubits, hold the truncated square. */
  lemma AddendValue(t: State, sq: seq<Qubit>, pads: seq<Qubit>, k: nat, drop: nat, aa: nat)
    requires Val(t, sq) == aa && Clean(t, pads) && k <= |sq|
    requires k == if drop <= |sq| then drop else |sq|
    ensures Val(t, sq[k..] + pads) == aa / Pow2(drop)
  {
    PaddedVal(t, sq[k..], pads);
    DropColumns(t, sq, k);
    if drop > |sq| {
      ValBound(t, sq);
      Pow2Monotone(|sq|, drop);
      ModUnique(aa, Pow2(drop), 0, aa);
      ModUnique(aa, Pow2(|sq|), 0, aa);
    }
  }

  // ---------------------------------------------------------------- where the wires of an iteration lie

  function LastAncilla(d: Wires): Qubit
    requires |d.anc| >= 1
  {
    d.anc[|d.anc| - 1]
  }

  /** The ancilla that serves as incoming carry of the squaring. */
  function SquareCarry(d: Wires, i: nat): Qubit
    requires i < |d.precision| && d.Fits(i)
  {
    d.anc[3 * d.precision[i]]
  }

  lemma WiresApart(d: Wires, i: nat)
    requires d.Valid() && i < |d.precision| && d.Fits(i)
    ensures Apart(Amplitude(d, i), Buffer(d, i), Square(d, i), SquareCarry(d, i), d.metric)
    ensures Multiplication.Wired(Amplitude(d, i), Buffer(d, i), Square(d, i), SquareCarry(d, i))
    ensures forall q :: q in Buffer(d, i) || q in Square(d, i) || q == SquareCarry(d, i) ==> q in d.anc
  {
    var p, o := d.precision[i], d.Offset(i);
    SlicesApart(d.anc, 0, p, p, 3 * p);
    SlicesApart(d.anc, 0, p, 3 * p, 3 * p + 1);
    SlicesApart(d.anc, p, 3 * p, 3 * p, 3 * p + 1);
    SlicesApart(d.eval, o, o + p, o + p, o + p);
    assert SquareCarry(d, i) in d.anc[3 * p..3 * p + 1] && SquareCarry(d, i) in d.anc;
  }

  /** Two slices of a register, and one qubit above both. */
  lemma SlicesAround(reg: seq<Qubit>, i: nat, j: nat, k: nat, l: nat, top: nat)
    requires Distinct(reg) && i <= j <= k <= l <= |reg|
    requires j <= top < |reg| && (k < l ==> l <= top)
    ensures Distinct(reg[i..j] + reg[k..l]) && reg[top] !in reg[i..j] + reg[k..l]
    ensures forall q :: q in reg[i..j] + reg[k..l] ==> q in reg
  {}

  /** Slices of the ancillas below a top qubit make an adder for the upper part of another register. */
  lemma SlicesAccepted(anc: seq<Qubit>, metric: seq<Qubit>, addend: seq<Qubit>, top: Qubit, f: nat)
    requires Distinct(addend) && top !in addend && top in anc && (forall q :: q in addend ==> q in anc)
    requires Distinct(metric) && Disjoint(metric, anc) && f < |metric| && |addend| + 1 == |metric[f..]|
    ensures RippleAdder.Accepts(addend, metric[f..], top, false) && Disjoint(addend, metric[f..])
  {
    SlicesApart(metric, f, |metric|, |metric|, |metric|);
    forall q | q in metric[f..]
      ensures q !in anc
    {
      assert q in metric;
    }
  }

  lemma AroundAccepted(anc: seq<Qubit>, metric: seq<Qubit>, i: nat, j: nat, k: nat, l: nat, top: nat, f: nat)
    requires Distinct(anc) && Distinct(metric) && Disjoint(metric, anc)
    requires i <= j <= k <= l <= |anc| && j <= top < |anc| && (k < l ==> l <= top)
    requires f < |metric| && j - i + l - k + 1 == |metric| - f
    ensures RippleAdder.Accepts(anc[i..j] + anc[k..l], metric[f..], anc[top], false)
  {
    SlicesAround(anc, i, j, k, l, top);
    SlicesAccepted(anc, metric, anc[i..j] + anc[k..l], anc[top], f);
  }

  lemma AdderApart(d: Wires, i: nat)
    requires d.Valid() && i < |d.precision| && d.Fits(i)
    ensures |Addend(d, i)| + 1 == |Target(d, i)|
    ensures RippleAdder.Accepts(Addend(d, i), Target(d, i), LastAncilla(d), false)
  {
    var p, kept, first := d.precision[i], d.Kept(i), d.First(i);
    var n := |d.metric| - first - 1 - kept;
    AroundAccepted(d.anc, d.metric, 3 * p - kept, 3 * p, 3 * p + 1, 3 * p + 1 + n, |d.anc| - 1, first);
  }

  lemma PadsApart(d: Wires, i: nat)
    requires d.Valid() && i < |d.precision| && d.Fits(i)
    ensures Disjoint(Pads(d, i), Buffer(d, i) + Square(d, i)) && LastAncilla(d) !in Buffer(d, i) + Square(d, i)
    ensures LastAncilla(d) in d.anc && forall q :: q in Pads(d, i) ==> q in d.anc
  {
    var p, n := d.precision[i], |d.metric| - d.First(i) - 1 - d.Kept(i);
    AddendIsColumns(d, i);
    SlicesAround(d.anc, 0, 3 * p, 3 * p + 1, 3 * p + 1 + n, |d.anc| - 1);
    SlicesApart(d.anc, 0, 3 * p, 3 * p + 1, 3 * p + 1 + n);
  }

  // ---------------------------------------------------------------- AEtoMetric::expand

  /** The addition of iteration i, as a function on states. */
  ghost predicate Adds(gates: seq<Gate>, addend: seq<Qubit>, target: seq<Qubit>, c: Qubit)
    requires Distinct(target)
  {
    forall t :: Run(gates, t) == if addend == [] then t else Write(t, target, Total(t, c, addend, target))
  }

  method BitsSoFar(d: Wires, i: nat) returns (bits: nat)
    requires i <= |d.precision|
    ensures bits == d.Offset(i)
  {
    bits := 0;
    for j := 0 to i
      invariant bits == d.Offset(j)
    {
      bits := bits + d.precision[j];
    }
  }

  /** The columns of the square from the given one on. */
  method ColumnsFrom(square: seq<Qubit>, start: nat) returns (kept: seq<Qubit>)
    ensures kept == if start <= |square| then square[start..] else []
  {
    kept := [];
    var j := start;
    while j < |square|
      invariant start <= j && (j <= |square| || j == start)
      invariant kept == if j <= |square| then square[start..j] else []
    {
      kept := kept + [square[j]];
      j := j + 1;
    }
  }

  method Pad(kept: seq<Qubit>, anc: seq<Qubit>, free: nat, width: nat) returns (addend: seq<Qubit>)
    requires |kept| <= width && free + width - |kept| <= |anc|
    ensures addend == kept + anc[free..free + width - |kept|]
  {
    addend := kept;
    var temp := 0;
    while |addend| < width
      invariant 0 <= temp <= width - |kept|
      invariant addend == kept + anc[free..free + temp]
    {
      addend := addend + [anc[free + temp]];
      temp := temp + 1;
    }
  }

  /** Drops the columns below the metric register. */
  method KeptPart(d: Wires, i: nat, square: seq<Qubit>) returns (kept: seq<Qubit>, first: nat)
    requires i < |d.precision| && d.Fits(i) && |square| == 2 * d.precision[i]
    ensures first == d.First(i) && kept == square[2 * d.precision[i] - d.Kept(i)..] && |kept| == d.Kept(i)
  {
    var column, ones := i - 2 * d.precision[i], -d.ones;
    first, kept := 0, square;
    if column < ones {
      kept := ColumnsFrom(square, ones - column);
    } else {
      first := column - ones;
    }
    KeptColumns(d, i, square, kept, first);
  }

  /** The addend, padded up to the target. */
  method AddendAndTarget(d: Wires, i: nat, square: seq<Qubit>) returns (addend: seq<Qubit>, target: seq<Qubit>)
    requires i < |d.precision| && d.Fits(i) && square == Square(d, i)
    ensures addend == Addend(d, i) && target == Target(d, i)
  {
    var kept, first := KeptPart(d, i, square);
    target := CopySlice(d.metric, first, |d.metric| - first);
    addend := Pad(kept, d.anc, 3 * d.precision[i] + 1, |target| - 1);
    AddendIsColumns(d, i);
  }

  lemma KeptColumns(d: Wires, i: nat, square: seq<Qubit>, addend: seq<Qubit>, first: nat)
    requires i < |d.precision| && d.Fits(i) && |square| == 2 * d.precision[i]
    requires var drop := 2 * d.precision[i] - i - d.ones;
             if drop > 0 then first == 0 && addend == (if drop <= |square| then square[drop..] else [])
             else first == -drop && addend == square
    ensures first == d.First(i) && addend == square[2 * d.precision[i] - d.Kept(i)..] && |addend| == d.Kept(i)
  {}

  /** Copies and squares one amplitude; also the circuit that undoes the squaring. */
  method BuildSquare(ev: seq<Qubit>, buf: seq<Qubit>, sq: seq<Qubit>, m: Qubit, ghost metric: seq<Qubit>)
    returns (copy: seq<Gate>, square: seq<Gate>, inverse: seq<Gate>)
    requires Apart(ev, buf, sq, m, metric) && Multiplication.Wired(ev, buf, sq, m)
    ensures Parts(copy, square, inverse, ev, buf, sq, m)
  {
    var circuit := new Composite();
    AddCXLayer(circuit, ev, buf);
    copy := circuit.instructions;
    assert copy == CXLayer(ev, buf);
    square := Multiplication.BuildMultiplication(ev, buf, sq, m);
    inverse := ExpandInverse(square);
    forall t
      ensures Run(copy, Run(copy, t)) == t && (Clean(t, buf) ==> Run(copy, t) == Write(t, buf, Val(t, ev)))
    {
      CopyActs(ev, buf, t);
    }
  }

  /** Adding the padded addend to the top of the metric register adds the shifted, truncated square to all of it. */
  lemma ColumnsAdd(add: seq<Gate>, addend: seq<Qubit>, lo: seq<Qubit>, top: seq<Qubit>, c: Qubit,
                   t: State, x: nat, whole: int)
    requires Distinct(lo + top) && Distinct(top) && Disjoint(top, lo) && Adds(add, addend, top, c)
    requires c !in t && Val(t, addend) == x && whole == Val(t, lo + top) + Pow2(|lo|) * x
    ensures Run(add, t) == Write(t, lo + top, whole)
  {
    if addend == [] {
      NothingAdded(t, lo + top, Pow2(|lo|), x, whole);
    } else {
      TopAdds(t, lo, top, x, Total(t, c, addend, top), whole);
    }
  }

  lemma NothingAdded(t: State, reg: seq<Qubit>, p: nat, x: nat, whole: int)
    requires Distinct(reg) && x == 0 && whole == Val(t, reg) + p * x
    ensures Write(t, reg, whole) == t
  {
    assert p * x == 0;
    WriteBack(t, reg);
  }

  /** Copying and squaring leave the padding, the adder's carry and the metric alone. */
  lemma OthersKept(d: Wires, i: nat, s: State, t: State)
    requires d.Valid() && i < |d.precision| && Clean(s, d.anc)
    requires Disjoint(Buffer(d, i) + Square(d, i), d.metric) && AgreeOff(t, s, Buffer(d, i) + Square(d, i))
    ensures LastAncilla(d) !in t && Clean(t, Pads(d, i)) && Val(t, d.metric) == Val(s, d.metric)
  {
    PadsApart(d, i);
    forall q | q in Pads(d, i)
      ensures q !in t
    {}
    ValAgree(t, s, d.metric);
  }

  /** After copying and squaring, the addend holds the truncated square and the adder's carry is clean. */
  lemma AddendReady(d: Wires, i: nat, s: State, t: State, a: nat, aa: nat)
    requires d.Valid() && i < |d.precision| && Clean(s, d.anc)
    requires Apart(Amplitude(d, i), Buffer(d, i), Square(d, i), SquareCarry(d, i), d.metric)
    requires t == Write(Write(s, Buffer(d, i), a), Square(d, i), aa) && aa < Pow2(|Square(d, i)|)
    ensures LastAncilla(d) !in t && Val(t, d.metric) == Val(s, d.metric)
    ensures Val(t, Addend(d, i)) == aa / Pow2(d.Drop(i))
  {
    OthersKept(d, i, s, t);
    ReadBack(Write(s, Buffer(d, i), a), Square(d, i), aa);
    AddendHolds(d, i, t, aa);
  }

  lemma AddendHolds(d: Wires, i: nat, t: State, aa: nat)
    requires i < |d.precision| && d.Fits(i) && Val(t, Square(d, i)) == aa && Clean(t, Pads(d, i))
    ensures Val(t, Addend(d, i)) == aa / Pow2(d.Drop(i))
  {
    AddendIsColumns(d, i);
    AddendValue(t, Square(d, i), Pads(d, i), 2 * d.precision[i] - d.Kept(i), d.Drop(i), aa);
  }

  lemma SquaredAmplitude(s: State, ev: seq<Qubit>) returns (a: nat, aa: nat)
    ensures a == Val(s, ev) && aa == Multiplication.Square(a) && a < Pow2(|ev|) && aa < Pow2(2 * |ev|)
  {
    a := Val(s, ev);
    aa := a * a;
    ValBound(s, ev);
    Pow2Add(|ev|, |ev|);
    Multiplication.ProductBelow(a, a, Pow2(|ev|), Pow2(|ev|));
  }

  lemma MetricSplits(d: Wires, i: nat)
    requires Distinct(d.metric) && i < |d.precision| && d.Fits(i)
    ensures d.metric == d.metric[..d.First(i)] + Target(d, i)
    ensures Distinct(Target(d, i)) && Disjoint(Target(d, i), d.metric[..d.First(i)])
  {
    SlicesApart(d.metric, 0, d.First(i), d.First(i), |d.metric|);
  }

  /** One iteration adds its contribution to the metric; every evaluation and ancilla qubit is restored. */
  lemma IterationAdds(d: Wires, i: nat, copy: seq<Gate>, square: seq<Gate>, inverse: seq<Gate>, add: seq<Gate>,
                      s: State, total: int)
    requires d.Valid() && i < |d.precision| && Clean(s, d.anc)
    requires Distinct(Buffer(d, i)) && Distinct(Square(d, i)) && Distinct(Target(d, i))
    requires Parts(copy, square, inverse, Amplitude(d, i), Buffer(d, i), Square(d, i), SquareCarry(d, i))
    requires Adds(add, Addend(d, i), Target(d, i), LastAncilla(d))
    requires total == Val(s, d.metric) + Contribution(s, d, i)
    ensures Run(copy, Run(inverse, Run(add, Run(square, Run(copy, s))))) == Write(s, d.metric, total)
  {
    var ev, buf, sq, m := Amplitude(d, i), Buffer(d, i), Square(d, i), SquareCarry(d, i);
    var t := Run(square, Run(copy, s));
    var a, aa := SquaredAmplitude(s, ev);
    WiresApart(d, i);
    SquaredState(copy, square, inverse, ev, buf, sq, m, d.metric, s, a, aa);
    AddendReady(d, i, s, t, a, aa);
    MetricSplits(d, i);
    ColumnsAdd(add, Addend(d, i), d.metric[..d.First(i)], Target(d, i), LastAncilla(d), t, aa / Pow2(d.Drop(i)), total);
    UncomputesAround(copy, square, inverse, ev, buf, sq, m, d.metric, s, a, total);
  }

  lemma RunBlock(before: seq<Gate>, body: seq<Gate>, s: State)
    ensures Run(before + [Block(body)], s) == Run(body, Run(before, s))
  {
    RunConcat(before, [Block(body)], s);
    RunOne(Block(body), Run(before, s));
  }

  /** The adder of an iteration; none is built for an empty addend. */
  method BuildAdder(addend: seq<Qubit>, target: seq<Qubit>, c: Qubit) returns (add: seq<Gate>)
    requires |addend| + 1 == |target| && RippleAdder.Accepts(addend, target, c, false)
    ensures Distinct(target) && Adds(add, addend, target, c)
    ensures addend == [] ==> add == []
  {
    add := [];
    if |addend| > 0 {
      add := ControlledAddition.BuildPlain(addend, target, c, false);
      assert Written(addend, target, false) == target;
    }
  }

  /** gates add the first i contributions to the metric of every state with clean ancillas. */
  ghost predicate SumsUp(gates: seq<Gate>, d: Wires, i: nat)
    requires d.Valid() && i <= |d.precision|
  {
    forall s :: Clean(s, d.anc) ==> Run(gates, s) == Write(s, d.metric, MetricAfter(s, d, i))
  }

  /** The metric after i iterations, before reduction to the register's width. */
  function MetricAfter(s: State, d: Wires, i: nat): nat
    requires i <= |d.precision| && forall k :: 0 <= k < i ==> d.Fits(k)
  {
    Val(s, d.metric) + WeightedSum(s, d, i)
  }

  lemma SumsUpOneMore(d: Wires, i: nat, sofar: seq<Gate>, copy: seq<Gate>, square: seq<Gate>, inverse: seq<Gate>,
                      add: seq<Gate>, s: State)
    requires d.Valid() && i < |d.precision| && SumsUp(sofar, d, i) && Clean(s, d.anc)
    requires Distinct(Buffer(d, i)) && Distinct(Square(d, i)) && Distinct(Target(d, i))
    requires Parts(copy, square, inverse, Amplitude(d, i), Buffer(d, i), Square(d, i), SquareCarry(d, i))
    requires Adds(add, Addend(d, i), Target(d, i), LastAncilla(d))
    ensures Run(copy, Run(inverse, Run(add, Run(square, Run(copy, Run(sofar, s))))))
         == Write(s, d.metric, MetricAfter(s, d, i + 1))
  {
    var t := Run(sofar, s);
    assert Clean(t, d.anc) by {
      forall q | q in d.anc
        ensures q !in t
      {}
    }
    ContributionAgrees(s, t, d, i);
    var total := Val(t, d.metric) + Contribution(s, d, i);
    IterationAdds(d, i, copy, square, inverse, add, t, total);
    WriteAccumulates(s, d.metric, MetricAfter(s, d, i), Contribution(s, d, i), total, MetricAfter(s, d, i + 1));
  }

  lemma ContributionAgrees(s: State, t: State, d: Wires, i: nat)
    requires d.Valid() && i < |d.precision| && AgreeOff(t, s, d.metric)
    ensures Contribution(t, d, i) == Contribution(s, d, i)
  {
    WiresApart(d, i);
    ValAgree(t, s, Amplitude(d, i));
  }

  /** The registers of iteration i, gathered qubit by qubit. */
  method GatherRegisters(d: Wires, i: nat) returns (ev: seq<Qubit>, buffer: seq<Qubit>, squared: seq<Qubit>)
    requires i < |d.precision| && d.Fits(i)
    ensures ev == Amplitude(d, i) && buffer == Buffer(d, i) && squared == Square(d, i)
  {
    var p := d.precision[i];
    buffer := CopySlice(d.anc, 0, p);
    var bits := BitsSoFar(d, i);
    ev := CopySlice(d.eval, bits, p);
    squared := CopySlice(d.anc, p, 2 * p);
  }

  /** Copy, square, add, unsquare, uncopy. */
  method AddIteration(sofar: seq<Gate>, copy: seq<Gate>, square: seq<Gate>, add: seq<Gate>, inverse: seq<Gate>, adding: bool)
    returns (gates: seq<Gate>)
    requires !adding ==> add == []
    ensures forall s :: Run(gates, s) == Run(copy, Run(inverse, Run(add, Run(square, Run(copy, Run(sofar, s))))))
  {
    var toSquare := sofar + copy + [Block(square)];
    var toAdd := toSquare;
    if adding {
      toAdd := toSquare + [Block(add)];
    }
    gates := toAdd + [Block(inverse)] + copy;
    forall s
      ensures Run(gates, s) == Run(copy, Run(inverse, Run(add, Run(square, Run(copy, Run(sofar, s))))))
    {
      RunConcat(sofar, copy, s);
      RunBlock(sofar + copy, square, s);
      RunBlock(toSquare, add, s);
      RunBlock(toAdd, inverse, s);
      RunConcat(toAdd + [Block(inverse)], copy, s);
    }
  }

  method AddContribution(sofar: seq<Gate>, d: Wires, i: nat) returns (gates: seq<Gate>)
    requires d.Valid() && i < |d.precision| && SumsUp(sofar, d, i)
    ensures SumsUp(gates, d, i + 1)
  {
    assert d.Fits(i);
    var ev, buffer, squared := GatherRegisters(d, i);
    WiresApart(d, i);
    var copy, square, inverse := BuildSquare(ev, buffer, squared, d.anc[3 * d.precision[i]], d.metric);
    var addend, target := AddendAndTarget(d, i, squared);
    AdderApart(d, i);
    var add := BuildAdder(addend, target, d.anc[|d.anc| - 1]);
    gates := AddIteration(sofar, copy, square, add, inverse, |addend| > 0);
    forall s | Clean(s, d.anc)
      ensures Run(gates, s) == Write(s, d.metric, MetricAfter(s, d, i + 1))
    {
      SumsUpOneMore(d, i, sofar, copy, square, inverse, add, s);
    }
  }

  // ---------------------------------------------------------------- the amplitudes

  /** The registers of a list, one after the other. */
  function Joined(parts: seq<seq<Qubit>>): seq<Qubit> {
    if parts == [] then [] else Joined(parts[..|parts| - 1]) + parts[|parts| - 1]
  }

  /** parts are the amplitudes: registers of the given widths that follow one another from the first evaluation qubit on. */
  ghost predicate Amplitudes(parts: seq<seq<Qubit>>, eval: seq<Qubit>, precision: seq<nat>) {
    && |parts| == |precision| && (forall i :: 0 <= i < |parts| ==> |parts[i]| == precision[i])
    && Joined(parts) <= eval
  }

  /** x shifted by e columns; a shift to the right loses the columns that leave. */
  function Shifted(x: nat, e: int): int {
    if e >= 0 then x * Pow2(e) else x / Pow2(-e)
  }

  /** The sum of the squares of the first k amplitudes, each shifted to its column. */
  function SquareSum(s: State, parts: seq<seq<Qubit>>, ones: int, k: nat): int
    requires k <= |parts|
  {
    if k == 0 then 0
    else SquareSum(s, parts, ones, k - 1)
         + Shifted(Val(s, parts[k - 1]) * Val(s, parts[k - 1]), k - 1 + ones - 2 * |parts[k - 1]|)
  }

  /** The metric with all squares added to it, before reduction to the register's width. */
  function MetricWith(s: State, metric: seq<Qubit>, parts: seq<seq<Qubit>>, ones: int): int {
    Val(s, metric) + SquareSum(s, parts, ones, |parts|)
  }

  lemma {:induction false} JoinedStart(parts: seq<seq<Qubit>>, d: Wires, i: nat)
    requires |parts| == |d.precision| && i <= |parts|
    requires forall k :: 0 <= k < |parts| ==> |parts[k]| == d.precision[k]
    ensures |Joined(parts[..i])| == d.Offset(i) && Joined(parts[..i]) <= Joined(parts)
    decreases i
  {
    if i > 0 {
      assert parts[..i][..i - 1] == parts[..i - 1];
      JoinedStart(parts, d, i - 1);
    }
    JoinedPrefix(parts, i);
  }

  lemma {:induction false} JoinedPrefix(parts: seq<seq<Qubit>>, i: nat)
    requires i <= |parts|
    ensures Joined(parts[..i]) <= Joined(parts)
    decreases |parts| - i
  {
    if i < |parts| {
      assert parts[..i + 1][..i] == parts[..i];
      JoinedPrefix(parts, i + 1);
    } else {
      assert parts[..i] == parts;
    }
  }

  /** Registers that follow one another are the ones the iterations use. */
  lemma AmplitudeIs(parts: seq<seq<Qubit>>, d: Wires, i: nat)
    requires Amplitudes(parts, d.eval, d.precision) && i < |parts| && d.Fits(i)
    ensures Amplitude(d, i) == parts[i]
  {
    JoinedStart(parts, d, i);
    JoinedPrefix(parts, i + 1);
    assert parts[..i + 1][..i] == parts[..i];
    SlicePart(d.eval, Joined(parts[..i]), parts[i]);
  }

  lemma SlicePart(reg: seq<Qubit>, before: seq<Qubit>, part: seq<Qubit>)
    requires before + part <= reg
    ensures |before| + |part| <= |reg| && reg[|before|..|before| + |part|] == part
  {}

  /** The amplitudes of the iterations follow one another. */
  lemma AmplitudesTile(d: Wires) returns (parts: seq<seq<Qubit>>)
    requires d.Valid()
    ensures Amplitudes(parts, d.eval, d.precision)
    ensures forall i :: 0 <= i < |d.precision| ==> parts[i] == Amplitude(d, i)
  {
    parts := Tiles(d);
    TilesTo(d, parts, |parts|);
    assert parts[..|parts|] == parts;
    forall i | 0 <= i < |parts|
      ensures |parts[i]| == d.precision[i]
    {
      assert d.Fits(i) && parts[i] == Amplitude(d, i);
    }
    assert d.eval[..d.Offset(|parts|)] <= d.eval;
  }

  ghost function Tiles(d: Wires): (parts: seq<seq<Qubit>>)
    requires d.Valid()
    ensures |parts| == |d.precision| && forall i :: 0 <= i < |parts| ==> parts[i] == Amplitude(d, i)
  {
    seq(|d.precision|, i requires 0 <= i < |d.precision| => Amplitude(d, i))
  }

  lemma {:induction false} TilesTo(d: Wires, parts: seq<seq<Qubit>>, i: nat)
    requires d.Valid() && i <= |parts| == |d.precision|
    requires forall k :: 0 <= k < |parts| ==> parts[k] == Amplitude(d, k)
    ensures d.Offset(i) <= |d.eval| && Joined(parts[..i]) == d.eval[..d.Offset(i)]
  {
    if i > 0 {
      assert parts[..i][..i - 1] == parts[..i - 1];
      assert d.Fits(i - 1);
      TilesTo(d, parts, i - 1);
    }
  }

  /** What an iteration adds, without its columns named. */
  lemma ContributionIs(s: State, d: Wires, part: seq<Qubit>, i: nat)
    requires i < |d.precision| && d.Fits(i) && part == Amplitude(d, i)
    ensures Contribution(s, d, i) == Shifted(Val(s, part) * Val(s, part), i + d.ones - 2 * |part|)
  {
    ShiftedSquare(Multiplication.Square(Val(s, part)), i + d.ones - 2 * |part|, d.First(i), d.Drop(i));
  }

  lemma ShiftedSquare(x: nat, e: int, first: nat, drop: nat)
    requires if e < 0 then first == 0 && drop == -e else first == e && drop == 0
    ensures Pow2(first) * (x / Pow2(drop)) == Shifted(x, e)
  {
    assert Pow2(0) == 1;
    assert x / 1 == x;
  }

  lemma {:induction false} WeightedSumIs(s: State, d: Wires, parts: seq<seq<Qubit>>, i: nat)
    requires d.Valid() && Amplitudes(parts, d.eval, d.precision) && i <= |parts|
    ensures WeightedSum(s, d, i) == SquareSum(s, parts, d.ones, i)
  {
    if i > 0 {
      WeightedSumIs(s, d, parts, i - 1);
      assert d.Fits(i - 1);
      AmplitudeIs(parts, d, i - 1);
      ContributionIs(s, d, parts[i - 1], i - 1);
    }
  }

  /**
   * On clean ancillas: metric := metric + sum over i of floor(a_i^2 * 2^(i + ones - 2 p_i)), modulo
   * 2^|metric|, where the amplitudes a_i of p_i qubits each follow one another in the evaluation register;
   * all else is restored.
   */
  method ExpandAEtoMetric(d: Wires) returns (gates: seq<Gate>)
    requires d.Valid()
    ensures forall s :: Clean(s, d.anc) ==> Run(gates, s) == Write(s, d.metric, MetricAfter(s, d, |d.precision|))
    ensures exists parts :: Amplitudes(parts, d.eval, d.precision)
    ensures forall s, parts :: Clean(s, d.anc) && Amplitudes(parts, d.eval, d.precision) ==>
              Run(gates, s) == Write(s, d.metric, MetricWith(s, d.metric, parts, d.ones))
  {
    gates := BuildIterations(d);
    InAmplitudes(d, gates);
  }

  lemma MetricAgrees(s: State, d: Wires, parts: seq<seq<Qubit>>)
    requires d.Valid() && Amplitudes(parts, d.eval, d.precision)
    ensures MetricAfter(s, d, |d.precision|) == MetricWith(s, d.metric, parts, d.ones)
  {
    WeightedSumIs(s, d, parts, |parts|);
  }

  lemma InAmplitudes(d: Wires, gates: seq<Gate>)
    requires d.Valid()
    requires forall s :: Clean(s, d.anc) ==> Run(gates, s) == Write(s, d.metric, MetricAfter(s, d, |d.precision|))
    ensures exists parts :: Amplitudes(parts, d.eval, d.precision)
    ensures forall s, parts :: Clean(s, d.anc) && Amplitudes(parts, d.eval, d.precision) ==>
              Run(gates, s) == Write(s, d.metric, MetricWith(s, d.metric, parts, d.ones))
  {
    var tiles := AmplitudesTile(d);
    forall s, parts | Clean(s, d.anc) && Amplitudes(parts, d.eval, d.precision)
      ensures Run(gates, s) == Write(s, d.metric, MetricWith(s, d.metric, parts, d.ones))
    {
      MetricAgrees(s, d, parts);
    }
  }

  method BuildIterations(d: Wires) returns (gates: seq<Gate>)
    requires d.Valid()
    ensures forall s :: Clean(s, d.anc) ==> Run(gates, s) == Write(s, d.metric, MetricAfter(s, d, |d.precision|))
  {
    gates := [];
    var i := 0;
    forall s
      ensures Run([], s) == Write(s, d.metric, MetricAfter(s, d, 0))
    {
      WriteBack(s, d.metric);
    }
    while i < |d.precision|
      invariant 0 <= i <= |d.precision|
      invariant SumsUp(gates, d, i)
    {
      gates := AddContribution(gates, d, i);
      i := i + 1;
    }
  }
}
