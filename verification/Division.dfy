/** Proper-fraction division by shift, compare and subtract, with full uncomputation. */
module Division {
  import opened Registers
  import opened Gates
  import opened RippleAdder
  import CompareGreater
  import opened Subtraction
  import opened Controls
  import opened Rotation
  import opened Inverse
  import opened Tameness

  /**
   * The wires of a division: the two working registers, each an operand followed by its
   * ancillas, the result with its lowest bit first, and the ancilla of the adders.
   */
  datatype Wires = Wires(num: seq<Qubit>, den: seq<Qubit>, res: seq<Qubit>, ancilla: Qubit) {
    ghost predicate Valid() {
      && 1 <= |num| == |den| && |res| <= |num|
      && Distinct(num) && Distinct(den) && Distinct(res)
      && Disjoint(num, den) && Disjoint(res, num) && Disjoint(res, den)
      && ancilla !in num && ancilla !in den && ancilla !in res
    }
  }

  /** Round r decides the bit of weight 2^-(r + 1). */
  function ResultBit(d: Wires, r: nat): Qubit
    requires r < |d.res|
  {
    d.res[|d.res| - 1 - r]
  }

  // ---------------------------------------------------------------- the numbers it computes

  /** A difference as the w-bit register stores it. */
  function Reduced(v: int, w: nat): int {
    if v < 0 then v + Pow2(w) else v
  }

  /**
   * The last k result bits computed from registers holding num and den of width w, with
   * ancilla bit c and earlier contents of those result bits.
   */
  function QuotientFrom(p: nat, w: nat, k: nat, num: int, den: int, c: nat, before: int): (q: int)
    requires k <= p && w >= 1
    ensures 0 <= q < Pow2(k)
    decreases k
  {
    if k == 0 then 0 else
    var rotated := RotatedBy(num, w, p - k + 1);
    var was := before >= Pow2(k - 1);
    var low := if was then before - Pow2(k - 1) else before;
    if was != (rotated >= den + c) then
      Pow2(k - 1) + QuotientFrom(p, w, k - 1, Reduced(rotated - den - c, w), RotatedBy(den, w, p - k + 1), c, low)
    else
      QuotientFrom(p, w, k - 1, num, den, c, low)
  }

  function Pending(d: Wires, r: nat): seq<Qubit>
    requires r <= |d.res|
  {
    d.res[..|d.res| - r]
  }

  function QuotientOf(s: State, d: Wires, r: nat): int
    requires |d.num| >= 1 && r <= |d.res|
  {
    QuotientFrom(|d.res|, |d.num|, |d.res| - r, Val(s, d.num), Val(s, d.den), Bit(s, d.ancilla), Val(s, Pending(d, r)))
  }

  // ---------------------------------------------------------------- one round

  /** The state after the comparison of round r. */
  function Decided(s: State, d: Wires, r: nat): State
    requires |d.num| >= 1 && r < |d.res|
  {
    if RotatedValue(s, d.num, r + 1) >= Val(s, d.den) + Bit(s, d.ancilla) then Flip(s, ResultBit(d, r)) else s
  }

  lemma RenamedMembers(reg: seq<Qubit>, i: nat)
    requires i <= |reg| && Distinct(reg)
    ensures |Renamed(reg, i)| == |reg| && Distinct(Renamed(reg, i))
    ensures forall q :: q in Renamed(reg, i) <==> q in reg
  {
    var low, high := reg[..|reg| - i], reg[|reg| - i..];
    assert reg == low + high;
    SwapHalves(low, high);
  }

  lemma SwapHalves(low: seq<Qubit>, high: seq<Qubit>)
    requires Distinct(low + high)
    ensures Distinct(high + low)
    ensures forall q :: q in high + low <==> q in low + high
  {
    var reg, t := low + high, high + low;
    forall i, j | 0 <= i < j < |t|
      ensures t[i] != t[j]
    {
      var i', j' := if i < |high| then |low| + i else i - |high|, if j < |high| then |low| + j else j - |high|;
      assert reg[i'] == t[i] && reg[j'] == t[j];
    }
  }

  /** What an enabled update leaves in the numerator register. */
  function NewNum(s: State, d: Wires, r: nat): int
    requires |d.num| >= 1
  {
    RotatedValue(s, d.num, r + 1) - Val(s, d.den) - Bit(s, d.ancilla)
  }

  /** The state after the update of round r. */
  ghost function Updated(s: State, d: Wires, r: nat): State
    requires d.Valid() && r < |d.res|
  {
    if ResultBit(d, r) in s
    then Write(Write(s, d.num, NewNum(s, d, r)), d.den, RotatedValue(s, d.den, r + 1))
    else s
  }

  /** The state after the controlled subtraction of round r. */
  ghost function Subtracted(s: State, d: Wires, r: nat): State
    requires d.Valid() && r < |d.res|
  {
    if ResultBit(d, r) in s then Write(s, d.num, Difference(s, d.num, d.den, Bit(s, d.ancilla))) else s
  }

  /** The update is a rotation of the numerator, the subtraction and a rotation of the denominator. */
  lemma UpdateSteps(d: Wires, r: nat, s: State, s1: State, s2: State, s3: State)
    requires d.Valid() && r < |d.res|
    requires s1 == Rotated(s, d.num, ResultBit(d, r), r + 1)
    requires s2 == Subtracted(s1, d, r)
    requires s3 == Rotated(s2, d.den, ResultBit(d, r), r + 1)
    ensures s3 == Updated(s, d, r)
  {
    var bit, i := ResultBit(d, r), r + 1;
    var v := RotatedValue(s, d.num, i);
    assert bit in d.res;
    if bit in s {
      ValBound(s, d.num);
      RotatedBound(Val(s, d.num), |d.num|, i);
      ReadBack(s, d.num, v);
      ValAgree(s1, s, d.den);
      assert Difference(s1, d.num, d.den, Bit(s1, d.ancilla)) == NewNum(s, d, r);
      WriteWrite(s, d.num, v, NewNum(s, d, r));
      ValAgree(s2, s, d.den);
    }
  }

  /** The controlled subtraction never flips one of its own controls. */
  lemma SubtractWellFormed(larger: seq<Qubit>, smaller: seq<Qubit>, c: Qubit, ctrl: Qubit)
    requires Subtraction.Accepts(larger, smaller) && UsableAncilla(larger, smaller, Some(c))
    requires ctrl !in larger && ctrl !in smaller && ctrl != c
    ensures WellFormed(ControlledSubtractGates(larger, smaller, Some(c), [ctrl], []))
  {
    var qubits := {c} + QubitSet(smaller) + QubitSet(larger);
    var add, gates := AdderGates(c, smaller, larger), SubtractGates(larger, smaller, Some(c));
    TameAdder(c, smaller, larger, qubits);
    TameXLayer(larger, qubits);
    TameOne(Block(add), qubits);
    TameConcat(XLayer(larger), [Block(add)], qubits);
    TameConcat(XLayer(larger) + [Block(add)], XLayer(larger), qubits);
    TameOne(Block(gates), qubits);
    var cu := Controlled([ctrl] + [], [Block(gates)]);
    assert ControlledSubtractGates(larger, smaller, Some(c), [ctrl], []) == [cu];
    TameOne(cu, qubits);
  }

  // ---------------------------------------------------------------- the whole circuit

  lemma PendingBits(d: Wires, r: nat)
    requires d.Valid() && r < |d.res|
    ensures Pending(d, r) == Pending(d, r + 1) + [ResultBit(d, r)]
    ensures ResultBit(d, r) in d.res && ResultBit(d, r) !in Pending(d, r + 1)
    ensures Distinct(Pending(d, r)) && Distinct(Pending(d, r + 1))
    ensures forall q :: q in Pending(d, r + 1) ==> q in d.res && q !in d.num && q !in d.den
  {}

  /** The update acts on a state with the pending result bits overwritten as on the state itself. */
  lemma UpdateIgnoresPending(d: Wires, r: nat, s: State, low: seq<Qubit>, v: int)
    requires d.Valid() && r < |d.res|
    requires Distinct(low) && ResultBit(d, r) !in low && d.ancilla !in low && Disjoint(low, d.num) && Disjoint(low, d.den)
    ensures Updated(Write(s, low, v), d, r) == Write(Updated(s, d, r), low, v)
  {
    var u := Write(s, low, v);
    ValAgree(u, s, d.num);
    ValAgree(u, s, d.den);
    assert Bit(u, d.ancilla) == Bit(s, d.ancilla);
    if ResultBit(d, r) in s {
      var nn, dd := NewNum(s, d, r), RotatedValue(s, d.den, r + 1);
      WriteCommute(s, low, v, d.num, nn);
      WriteCommute(Write(s, d.num, nn), low, v, d.den, dd);
    }
  }

  /** What the registers hold once the update of round r has run. */
  lemma UpdatedValues(d: Wires, r: nat, s: State, t: State)
    requires d.Valid() && r < |d.res| && t == Updated(s, d, r) && ResultBit(d, r) in s
    ensures Val(t, d.num) == Reduced(NewNum(s, d, r), |d.num|)
    ensures Val(t, d.den) == RotatedValue(s, d.den, r + 1)
  {
    var nn, dd, w := NewNum(s, d, r), RotatedValue(s, d.den, r + 1), |d.num|;
    var u := Write(s, d.num, nn);
    ValBound(s, d.num);
    ValBound(s, d.den);
    RotatedBound(Val(s, d.num), w, r + 1);
    RotatedBound(Val(s, d.den), w, r + 1);
    WriteNear(s, d.num, nn, Reduced(nn, w));
    ReadBack(u, d.den, dd);
    ValAgree(t, u, d.num);
  }

  lemma UpdateKeeps(d: Wires, r: nat, s: State, t: State)
    requires d.Valid() && r < |d.res| && t == Updated(s, d, r)
    ensures forall q :: q !in d.num && q !in d.den ==> (q in t <==> q in s)
  {}

  /** Deciding changes neither operand, and the update no pending bit. */
  lemma RoundReads(d: Wires, r: nat, s: State, s1: State, s2: State, low: seq<Qubit>)
    requires d.Valid() && r < |d.res| && low == Pending(d, r + 1)
    requires s1 == Decided(s, d, r) && s2 == Updated(s1, d, r)
    ensures Val(s1, d.num) == Val(s, d.num) && Val(s1, d.den) == Val(s, d.den)
    ensures Val(s1, low) == Val(s, low) == Val(s2, low)
  {
    PendingBits(d, r);
    UpdateKeeps(d, r, s1, s2);
    ValAgree(s1, s, d.num);
    ValAgree(s1, s, d.den);
    ValAgree(s1, s, low);
    ValAgree(s2, s1, low);
  }

  /** One round of the quotient: the decided bit and the bits below it. */
  lemma RoundQuotient(d: Wires, r: nat, s: State, s1: State, s2: State)
    requires d.Valid() && r < |d.res|
    requires s1 == Decided(s, d, r) && s2 == Updated(s1, d, r)
    ensures QuotientOf(s, d, r)
         == QuotientOf(s2, d, r + 1) + if ResultBit(d, r) in s1 then Pow2(|d.res| - r - 1) else 0
  {
    var bit, low := ResultBit(d, r), Pending(d, r + 1);
    PendingBits(d, r);
    RoundReads(d, r, s, s1, s2, low);
    ValSnoc(s, low, bit);
    ValBound(s, low);
    if bit in s1 { UpdatedValues(d, r, s1, s2); }
    QuotientStep(|d.res|, |d.num|, |d.res| - r, Val(s, d.num), Val(s, d.den), Bit(s, d.ancilla), Val(s, low + [bit]),
                 bit in s1, RotatedValue(s, d.num, r + 1), RotatedValue(s, d.den, r + 1),
                 Val(s2, d.num), Val(s2, d.den), Val(s2, low));
  }

  /** QuotientFrom with every intermediate number named. */
  lemma QuotientStep(p: nat, w: nat, k: nat, num: int, den: int, c: nat, before: int, bit: bool,
                     rotNum: int, rotDen: int, num': int, den': int, low: int)
    requires 1 <= k <= p && w >= 1
    requires rotNum == RotatedBy(num, w, p - k + 1) && rotDen == RotatedBy(den, w, p - k + 1)
    requires bit <==> (before >= Pow2(k - 1)) != (rotNum >= den + c)
    requires low == if before >= Pow2(k - 1) then before - Pow2(k - 1) else before
    requires num' == if bit then Reduced(rotNum - den - c, w) else num
    requires den' == if bit then rotDen else den
    ensures QuotientFrom(p, w, k, num, den, c, before)
         == QuotientFrom(p, w, k - 1, num', den', c, low) + if bit then Pow2(k - 1) else 0
  {}

  /** Storing the lower bits beside a bit already set stores the whole value. */
  lemma PlaceBit(s: State, s1: State, low: seq<Qubit>, bit: Qubit, q: int, total: int)
    requires Distinct(low) && Distinct(low + [bit]) && bit !in low
    requires forall x :: x != bit ==> (x in s1 <==> x in s)
    requires 0 <= q < Pow2(|low|) && total == q + if bit in s1 then Pow2(|low|) else 0
    ensures Write(s1, low, q) == Write(s, low + [bit], total)
  {
    var u := Write(s1, low, q);
    ReadBack(s1, low, q);
    ValSnoc(u, low, bit);
    HoldsOwn(u, low + [bit]);
    forall x | x !in low + [bit]
      ensures x in u <==> x in s
    {
      assert x !in low && x != bit;
    }
    WriteUnique(s, u, low + [bit], total);
  }

  /** The bits below and the decided bit, stored one after the other, store the pending quotient. */
  lemma RoundStores(d: Wires, r: nat, s: State)
    requires d.Valid() && r < |d.res|
    ensures Distinct(Pending(d, r)) && Distinct(Pending(d, r + 1))
    ensures Write(Decided(s, d, r), Pending(d, r + 1), QuotientOf(Updated(Decided(s, d, r), d, r), d, r + 1))
         == Write(s, Pending(d, r), QuotientOf(s, d, r))
  {
    var s1 := Decided(s, d, r);
    var s2 := Updated(s1, d, r);
    PendingBits(d, r);
    RoundQuotient(d, r, s, s1, s2);
    PlaceBit(s, s1, Pending(d, r + 1), ResultBit(d, r), QuotientOf(s2, d, r + 1), QuotientOf(s, d, r));
  }

  // ---------------------------------------------------------------- the loops of the circuit

  /** The comparison's operand: the last i qubits of the register first, then the others. */
  method ShiftedRegister(numreg: seq<Qubit>, i: nat) returns (temp: seq<Qubit>)
    requires i <= |numreg|
    ensures temp == Renamed(numreg, i)
  {
    var temp1, temp2 := [], [];
    for k := |numreg| - i to |numreg|
      invariant temp1 == numreg[|numreg| - i..k]
    {
      temp1 := temp1 + [numreg[k]];
    }
    for k := 0 to |numreg| - i
      invariant temp2 == numreg[..k]
    {
      temp2 := temp2 + [numreg[k]];
    }
    temp := temp1 + temp2;
  }

  method BuildComparison(d: Wires, r: nat) returns (comp: seq<Gate>)
    requires d.Valid() && r < |d.res|
    ensures forall s :: Run(comp, s) == if Val(s, d.den) + Bit(s, d.ancilla) > RotatedValue(s, d.num, r + 1)
                                        then Flip(s, ResultBit(d, r)) else s
  {
    var shifted := ShiftedRegister(d.num, r + 1);
    var bit := ResultBit(d, r);
    assert bit in d.res;
    RenamedMembers(d.num, r + 1);
    var circuit := new Composite();
    var ok := CompareGreater.ExpandCompareGT(circuit, d.den, shifted, bit, d.ancilla, true);
    comp := circuit.instructions;
    assert comp == CompareGreater.CompareGates(d.den, shifted, bit, d.ancilla);
    forall s
      ensures Run(comp, s) == if Val(s, d.den) + Bit(s, d.ancilla) > RotatedValue(s, d.num, r + 1) then Flip(s, bit) else s
    {
      CompareGreater.CompareCompares(d.den, shifted, bit, d.ancilla, s);
      RenamedVal(s, d.num, r + 1);
    }
  }

  /** Sets the result bit of round r exactly when the shifted numerator is not below the denominator. */
  method AddDecision(circuit: Composite, d: Wires, r: nat)
    requires d.Valid() && r < |d.res|
    modifies circuit
    ensures forall s :: Run(circuit.instructions, s) == Decided(Run(old(circuit.instructions), s), d, r)
  {
    var bit := ResultBit(d, r);
    assert bit in d.res;
    ghost var gates0 := circuit.instructions;
    circuit.AddInstruction(X(bit));
    ghost var gates1 := circuit.instructions;
    var comp := BuildComparison(d, r);
    circuit.AddInstruction(Block(comp));
    forall s
      ensures Run(circuit.instructions, s) == Decided(Run(gates0, s), d, r)
    {
      var s0 := Run(gates0, s);
      RunConcat(gates0, [X(bit)], s);
      RunOne(X(bit), s0);
      RunConcat(gates1, [Block(comp)], s);
      RunOne(Block(comp), Flip(s0, bit));
      ValAgree(Flip(s0, bit), s0, d.den);
      ValAgree(Flip(s0, bit), s0, d.num);
    }
  }

  method BuildSubtract(d: Wires, r: nat) returns (sub: seq<Gate>)
    requires d.Valid() && r < |d.res|
    ensures WellFormed(sub) && forall s :: Run(sub, s) == Subtracted(s, d, r)
  {
    var bit := ResultBit(d, r);
    assert bit in d.res;
    var circuit := new Composite();
    var ok := ExpandControlledSubtraction(circuit, d.num, d.den, Some(d.ancilla), [bit], [], true);
    sub := circuit.instructions;
    assert sub == ControlledSubtractGates(d.num, d.den, Some(d.ancilla), [bit], []);
    SubtractWellFormed(d.num, d.den, d.ancilla, bit);
    forall s
      ensures Run(sub, s) == Subtracted(s, d, r)
    {
      ControlledSubtractActs(d.num, d.den, Some(d.ancilla), [bit], [], s);
      assert Enabled(s, [bit], []) <==> bit in s;
    }
  }

  /** Under the result bit: numerator := 2^(r+1) numerator - denominator, denominator := 2^(r+1) denominator. */
  method AddUpdate(circuit: Composite, d: Wires, r: nat)
    requires d.Valid() && r < |d.res|
    modifies circuit
    ensures forall s :: Run(circuit.instructions, s) == Updated(Run(old(circuit.instructions), s), d, r)
  {
    var ctrl := ResultBit(d, r);
    assert ctrl in d.res;
    ghost var gates0 := circuit.instructions;
    AddRotation(circuit, d.num, ctrl, r + 1);
    ghost var gates1 := circuit.instructions;
    var sub := BuildSubtract(d, r);
    circuit.AddInstruction(Block(sub));
    ghost var gates2 := circuit.instructions;
    AddRotation(circuit, d.den, ctrl, r + 1);
    forall s
      ensures Run(circuit.instructions, s) == Updated(Run(gates0, s), d, r)
    {
      RunConcat(gates1, [Block(sub)], s);
      RunOne(Block(sub), Run(gates1, s));
      UpdateSteps(d, r, Run(gates0, s), Run(gates1, s), Run(gates2, s), Run(circuit.instructions, s));
    }
  }

  /** From an updated state the circuit leads back to the state before the update. */
  method AddUndo(circuit: Composite, d: Wires, r: nat)
    requires d.Valid() && r < |d.res|
    modifies circuit
    ensures forall s, t :: Run(old(circuit.instructions), s) == Updated(t, d, r) ==> Run(circuit.instructions, s) == t
  {
    var ctrl := ResultBit(d, r);
    assert ctrl in d.res;
    ghost var gates0 := circuit.instructions;
    AddRotationBack(circuit, d.den, ctrl, r + 1);
    ghost var gates1 := circuit.instructions;
    var sub := BuildSubtract(d, r);
    var inverse := ExpandInverse(sub);
    circuit.AddInstruction(Block(inverse));
    ghost var gates2 := circuit.instructions;
    AddRotationBack(circuit, d.num, ctrl, r + 1);
    forall s, t | Run(gates0, s) == Updated(t, d, r)
      ensures Run(circuit.instructions, s) == t
    {
      var t1 := Rotated(t, d.num, ctrl, r + 1);
      var t2 := Subtracted(t1, d, r);
      UpdateSteps(d, r, t, t1, t2, Rotated(t2, d.den, ctrl, r + 1));
      assert Run(gates1, s) == t2;
      RunConcat(gates1, [Block(inverse)], s);
      RunOne(Block(inverse), t2);
      assert Run(sub, t1) == t2;
      assert Run(gates2, s) == t1;
    }
  }

  /** The state after the first k rounds of the computing loop. */
  ghost function Computed(s: State, d: Wires, k: nat): State
    requires d.Valid() && k <= |d.res|
  {
    if k == 0 then s else Updated(Decided(Computed(s, d, k - 1), d, k - 1), d, k - 1)
  }

  /** What rounds r and above, computed and uncomputed, leave of a state. */
  ghost function Finished(s: State, d: Wires, r: nat): State
    requires d.Valid() && r <= |d.res|
  {
    PendingDistinct(d, r);
    Write(s, Pending(d, r), QuotientOf(s, d, r))
  }

  lemma PendingDistinct(d: Wires, r: nat)
    requires d.Valid() && r <= |d.res|
    ensures Distinct(Pending(d, r))
  {}

  /** Finishing after round r is an update of what is to be left of round r. */
  lemma FinishedIsUpdate(d: Wires, r: nat, s: State)
    requires d.Valid() && r < |d.res|
    ensures Finished(Updated(Decided(s, d, r), d, r), d, r + 1) == Updated(Finished(s, d, r), d, r)
  {
    var s1 := Decided(s, d, r);
    var s2 := Updated(s1, d, r);
    PendingBits(d, r);
    UpdateIgnoresPending(d, r, s1, Pending(d, r + 1), QuotientOf(s2, d, r + 1));
    RoundStores(d, r, s);
  }

  method BuildRounds(d: Wires) returns (circuit: Composite)
    requires d.Valid()
    ensures fresh(circuit)
    ensures forall s :: Run(circuit.instructions, s) == Computed(s, d, |d.res|)
  {
    circuit := new Composite();
    var i := 1;
    while i <= |d.res|
      invariant 1 <= i <= |d.res| + 1
      invariant forall s :: Run(circuit.instructions, s) == Computed(s, d, i - 1)
    {
      AddDecision(circuit, d, i - 1);
      AddUpdate(circuit, d, i - 1);
      i := i + 1;
    }
  }

  lemma FinishedAtEnd(d: Wires, s: State)
    requires d.Valid()
    ensures Finished(s, d, |d.res|) == s
  {
    WriteNothing(s, Pending(d, |d.res|), QuotientOf(s, d, |d.res|));
  }

  /** One iteration of the uncomputing loop. */
  method UncomputeRound(circuit: Composite, d: Wires, r: nat)
    requires d.Valid() && r < |d.res|
    requires forall s :: Run(circuit.instructions, s) == Finished(Computed(s, d, r + 1), d, r + 1)
    modifies circuit
    ensures forall s :: Run(circuit.instructions, s) == Finished(Computed(s, d, r), d, r)
  {
    ghost var before := circuit.instructions;
    AddUndo(circuit, d, r);
    forall s
      ensures Run(circuit.instructions, s) == Finished(Computed(s, d, r), d, r)
    {
      FinishedIsUpdate(d, r, Computed(s, d, r));
      assert Run(before, s) == Updated(Finished(Computed(s, d, r), d, r), d, r);
    }
  }

  /**
   * The computing loop and the uncomputing loop. On every state the result register receives
   * the computed bits, and every other qubit, the operands and all ancillas included, ends as
   * it started.
   */
  method BuildDivision(d: Wires) returns (gates: seq<Gate>)
    requires d.Valid()
    ensures forall s :: Run(gates, s) == Write(s, d.res, QuotientOf(s, d, 0))
  {
    var circuit := BuildRounds(d);
    forall s
      ensures Run(circuit.instructions, s) == Finished(Computed(s, d, |d.res|), d, |d.res|)
    {
      FinishedAtEnd(d, Computed(s, d, |d.res|));
    }
    UncomputeRounds(circuit, d);
    assert Pending(d, 0) == d.res;
    gates := circuit.instructions;
  }

  /** The uncomputing loop. */
  method UncomputeRounds(circuit: Composite, d: Wires)
    requires d.Valid()
    requires forall s :: Run(circuit.instructions, s) == Finished(Computed(s, d, |d.res|), d, |d.res|)
    modifies circuit
    ensures forall s :: Run(circuit.instructions, s) == Finished(Computed(s, d, 0), d, 0)
  {
    var i := |d.res|;
    while i >= 1
      invariant 0 <= i <= |d.res|
      invariant forall s :: Run(circuit.instructions, s) == Finished(Computed(s, d, i), d, i)
    {
      UncomputeRound(circuit, d, i - 1);
      i := i - 1;
    }
  }
}
