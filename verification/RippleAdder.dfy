/**
 * The ripple-carry adder, a majority sweep up and an unmajority sweep down, from which every other
 * arithmetic circuit is built.
 */
module RippleAdder {
  import opened Registers
  import opened Gates

  function Majority(a: Qubit, b: Qubit, c: Qubit): seq<Gate> {
    [CX(c, b), CX(c, a), Controlled([b, a], [X(c)])]
  }

  function Unmajority(a: Qubit, b: Qubit, c: Qubit): seq<Gate> {
    [Controlled([b, a], [X(c)]), CX(c, a), CX(a, b)]
  }

  /** The qubit that carries into bit i: the incoming carry, then each adder bit in turn. */
  function CarryInto(cIn: Qubit, adder: seq<Qubit>, i: nat): Qubit
    requires i <= |adder|
  {
    if i == 0 then cIn else adder[i - 1]
  }

  function OpenBit(cIn: Qubit, adder: seq<Qubit>, sum: seq<Qubit>): nat -> seq<Gate> {
    (i: nat) => if i < |adder| && i < |sum| then Majority(CarryInto(cIn, adder, i), sum[i], adder[i]) else []
  }

  function CloseBit(cIn: Qubit, adder: seq<Qubit>, sum: seq<Qubit>): nat -> seq<Gate> {
    (i: nat) => if i < |adder| && i < |sum| then Unmajority(CarryInto(cIn, adder, i), sum[i], adder[i]) else []
  }

  /** When sum has a qubit beyond the adder's width, it receives the last carry. */
  function CarryOut(cIn: Qubit, adder: seq<Qubit>, sum: seq<Qubit>): seq<Gate> {
    if |adder| < |sum| then [CX(CarryInto(cIn, adder, |adder|), sum[|adder|])] else []
  }

  function AdderGates(cIn: Qubit, adder: seq<Qubit>, sum: seq<Qubit>): seq<Gate> {
    AdderFrom(cIn, adder, sum, 0)
  }

  /** The rounds of bits i and above. */
  function AdderFrom(cIn: Qubit, adder: seq<Qubit>, sum: seq<Qubit>, i: nat): seq<Gate>
    requires i <= |adder|
  {
    Nest(OpenBit(cIn, adder, sum), CarryOut(cIn, adder, sum), CloseBit(cIn, adder, sum), i, |adder|)
  }

  ghost predicate Separate(c: Qubit, a: seq<Qubit>, b: seq<Qubit>) {
    Distinct(a) && Distinct(b) && Disjoint(a, b) && c !in a && c !in b
  }

  /** t is s after a majority: c holds the carry, a and b what is needed to restore it. */
  ghost predicate MajorityStep(a: Qubit, b: Qubit, c: Qubit, s: State, t: State) {
    && (forall q :: q != a && q != b && q != c ==> (q in t <==> q in s))
    && (b in t <==> (b in s) != (c in s))
    && (a in t <==> (a in s) != (c in s))
    && Bit(t, c) == (Bit(s, a) + Bit(s, b) + Bit(s, c)) / 2
  }

  ghost predicate UnmajorityStep(a: Qubit, b: Qubit, c: Qubit, s: State, t: State) {
    && (forall q :: q != a && q != b && q != c ==> (q in t <==> q in s))
    && (c in t <==> (c in s) != (a in s && b in s))
    && (a in t <==> (a in s) != (c in t))
    && (b in t <==> (b in s) != (a in t))
  }

  lemma MajorityActs(a: Qubit, b: Qubit, c: Qubit, s: State)
    requires a != b && a != c && b != c
    ensures MajorityStep(a, b, c, s, Run(Majority(a, b, c), s))
  {
    var s1 := Apply(CX(c, b), s);
    var s2 := Apply(CX(c, a), s1);
    RunThree(CX(c, b), CX(c, a), Controlled([b, a], [X(c)]), s);
    RunOne(X(c), s2);
    assert AllOn(s2, [b, a]) <==> b in s2 && a in s2;
  }

  lemma UnmajorityActs(a: Qubit, b: Qubit, c: Qubit, s: State)
    requires a != b && a != c && b != c
    ensures UnmajorityStep(a, b, c, s, Run(Unmajority(a, b, c), s))
  {
    var s1 := Apply(Controlled([b, a], [X(c)]), s);
    RunThree(Controlled([b, a], [X(c)]), CX(c, a), CX(a, b), s);
    RunOne(X(c), s);
    assert AllOn(s, [b, a]) <==> b in s && a in s;
    assert c in s1 <==> (c in s) != (a in s && b in s);
  }

  lemma RoundKeepsOthers(c: Qubit, a0: Qubit, b: seq<Qubit>, s: State, s1: State, s2: State, s3: State)
    requires |b| >= 1
    requires a0 !in b && c !in b && c != a0 && b[0] !in b[1..]
    requires MajorityStep(c, b[0], a0, s, s1)
    requires AgreeOff(s2, s1, b[1..])
    requires UnmajorityStep(c, b[0], a0, s2, s3)
    ensures AgreeOff(s3, s, b)
    ensures AgreeOff(s3, s2, [c, b[0], a0])
    ensures Bit(s3, b[0]) == (Bit(s, c) + Bit(s, b[0]) + Bit(s, a0)) % 2
  {
    forall q | q !in b
      ensures q in s3 <==> q in s
    {
      assert q != b[0] && q !in b[1..];
    }
  }

  /** A majority and its unmajority around an addition of the higher bits extend it by one bit. */
  lemma RoundAdds(c: Qubit, a: seq<Qubit>, b: seq<Qubit>, s: State, s1: State, s2: State, s3: State, high: nat, total: int)
    requires |a| >= 1 && |b| >= 1 && Separate(c, a, b)
    requires MajorityStep(c, b[0], a[0], s, s1)
    requires high == Val(s1, b[1..]) + Val(s1, a[1..]) + Bit(s1, a[0])
    requires s2 == Write(s1, b[1..], high)
    requires UnmajorityStep(c, b[0], a[0], s2, s3)
    requires total == Val(s, b) + Val(s, a) + Bit(s, c)
    ensures s3 == Write(s, b, total)
  {
    assert a[0] in a && b[0] in b;
    assert a[0] !in a[1..] && b[0] !in b[1..];
    ValAgree(s1, s, a[1..]);
    ValAgree(s1, s, b[1..]);
    RoundKeepsOthers(c, a[0], b, s, s1, s2, s3);
    HoldsAgree(s2, s3, b[1..], high);
    WriteBits(s, s3, b, total, high);
  }

  /** Past the adder register the carry is all there is to add. */
  lemma LastCarryAdds(c: Qubit, b: seq<Qubit>, s: State, total: int, gates: seq<Gate>)
    requires |b| <= 1 && Distinct(b) && c !in b && total == Val(s, b) + Bit(s, c)
    requires gates == if |b| == 1 then [CX(c, b[0])] else []
    ensures Run(gates, s) == Write(s, b, total)
  {
    if |b| == 1 {
      assert b == [b[0]];
      SingleVal(s, b[0]);
      RunOne(CX(c, b[0]), s);
      WriteBits(s, Run(gates, s), b, total, if b[0] in s && c in s then 1 else 0);
    } else {
      WriteUnique(s, s, b, total);
    }
  }

  /** The rounds from bit i on add the high parts of both registers and the carry into bit i. */
  lemma {:induction false} AdderFromAdds(cIn: Qubit, adder: seq<Qubit>, sum: seq<Qubit>, i: nat, s: State, total: int)
    requires i <= |adder| <= |sum| <= |adder| + 1
    requires Separate(cIn, adder, sum)
    requires total == Val(s, sum[i..]) + Val(s, adder[i..]) + Bit(s, CarryInto(cIn, adder, i))
    ensures Run(AdderFrom(cIn, adder, sum, i), s) == Write(s, sum[i..], total)
    decreases |adder| - i
  {
    var c := CarryInto(cIn, adder, i);
    var a, b := adder[i..], sum[i..];
    assert c == cIn || c in adder;
    SliceSeparate(adder, sum, i, i);
    if i == |adder| {
      LastCarryAdds(c, b, s, total, AdderFrom(cIn, adder, sum, i));
    } else {
      assert Separate(c, a, b) && a[0] in a && b[0] in b;
      var s1 := Run(Majority(c, b[0], a[0]), s);
      RunAround(Majority(c, b[0], a[0]), AdderFrom(cIn, adder, sum, i + 1), Unmajority(c, b[0], a[0]), s);
      var s2 := Run(AdderFrom(cIn, adder, sum, i + 1), s1);
      assert a[1..] == adder[i + 1..] && b[1..] == sum[i + 1..];
      var high := Val(s1, b[1..]) + Val(s1, a[1..]) + Bit(s1, a[0]);
      AdderFromAdds(cIn, adder, sum, i + 1, s1, high);
      MajorityActs(c, b[0], a[0], s);
      UnmajorityActs(c, b[0], a[0], s2);
      RoundAdds(c, a, b, s, s1, s2, Run(Unmajority(c, b[0], a[0]), s2), high, total);
    }
  }

  /** What the addition leaves in the sum register, before reduction to its width. */
  function Total(s: State, cIn: Qubit, adder: seq<Qubit>, sum: seq<Qubit>): nat {
    Val(s, sum) + Val(s, adder) + Bit(s, cIn)
  }

  /**
   * The adder adds adder and the incoming carry to sum, modulo 2^|sum|. Every other qubit,
   * the adder register and the carry included, ends as it started.
   */
  lemma AdderAdds(cIn: Qubit, adder: seq<Qubit>, sum: seq<Qubit>, s: State)
    requires |adder| <= |sum| <= |adder| + 1
    requires Separate(cIn, adder, sum)
    ensures Run(AdderGates(cIn, adder, sum), s) == Write(s, sum, Total(s, cIn, adder, sum))
  {
    assert adder[0..] == adder && sum[0..] == sum;
    AdderFromAdds(cIn, adder, sum, 0, s, Total(s, cIn, adder, sum));
  }

  // ---------------------------------------------------------------- RippleCarryAdder::expand

  /** The conditions under which the adder accepts its registers. */
  predicate Accepts(adder: seq<Qubit>, sum: seq<Qubit>, cIn: Qubit, noOverflow: bool) {
    && |adder| <= |sum|
    && Distinct(adder) && Distinct(sum) && Disjoint(adder, sum)
    && cIn !in adder && cIn !in sum
    && (noOverflow || |adder| < |sum|)
  }

  /** The qubits of the sum register that the adder writes. */
  function Written(adder: seq<Qubit>, sum: seq<Qubit>, noOverflow: bool): seq<Qubit>
    requires |adder| <= |sum| && (noOverflow || |adder| < |sum|)
  {
    if noOverflow then sum[..|adder|] else sum[..|adder| + 1]
  }

  method ExpandRippleCarryAdder(circuit: Composite, adder: seq<Qubit>, sum: seq<Qubit>, cIn: Qubit, noOverflow: bool)
    returns (ok: bool)
    requires |adder| >= 1
    modifies circuit
    ensures ok <==> Accepts(adder, sum, cIn, noOverflow)
    ensures ok ==> circuit.instructions
                   == old(circuit.instructions) + AdderGates(cIn, adder, Written(adder, sum, noOverflow))
    ensures !ok ==> circuit.instructions == old(circuit.instructions)
  {
    if |sum| < |adder| { return false; }
    if !Distinct(adder) || !Distinct(sum) { return false; }
    if exists q :: q in adder && q in sum { return false; }
    if cIn in adder || cIn in sum { return false; }
    if !noOverflow && |sum| <= |adder| { return false; }

    EmitAdder(circuit, adder, sum, cIn, noOverflow);
    return true;
  }

  method SweepForward(circuit: Composite, adder: seq<Qubit>, sum: seq<Qubit>, cIn: Qubit)
    requires 1 <= |adder| <= |sum|
    modifies circuit
    ensures circuit.instructions == old(circuit.instructions) + Openers(OpenBit(cIn, adder, sum), |adder|)
  {
    ghost var open, before := OpenBit(cIn, adder, sum), circuit.instructions;
    EmitOpener(before, open, Majority(cIn, sum[0], adder[0]), 0);
    circuit.AddInstructions(Majority(cIn, sum[0], adder[0]));
    var j := 0;
    while j < |adder| - 1
      invariant 0 <= j < |adder|
      invariant circuit.instructions == before + Openers(open, j + 1)
    {
      EmitOpener(before, open, Majority(adder[j], sum[j + 1], adder[j + 1]), j + 1);
      circuit.AddInstructions(Majority(adder[j], sum[j + 1], adder[j + 1]));
      j := j + 1;
    }
  }

  method SweepBackward(circuit: Composite, adder: seq<Qubit>, sum: seq<Qubit>, cIn: Qubit)
    requires 1 <= |adder| <= |sum|
    modifies circuit
    ensures circuit.instructions == old(circuit.instructions) + Closers(CloseBit(cIn, adder, sum), |adder|)
  {
    ghost var close := CloseBit(cIn, adder, sum);
    ghost var whole := circuit.instructions + Closers(close, |adder|);
    var j := |adder| - 2;
    while j >= 0
      invariant -1 <= j <= |adder| - 2
      invariant circuit.instructions + Closers(close, j + 2) == whole
    {
      EmitCloser(circuit.instructions, Unmajority(adder[j], sum[j + 1], adder[j + 1]), close, j + 1);
      circuit.AddInstructions(Unmajority(adder[j], sum[j + 1], adder[j + 1]));
      j := j - 1;
    }
    EmitCloser(circuit.instructions, Unmajority(cIn, sum[0], adder[0]), close, 0);
    circuit.AddInstructions(Unmajority(cIn, sum[0], adder[0]));
  }

  method EmitAdder(circuit: Composite, adder: seq<Qubit>, sum: seq<Qubit>, cIn: Qubit, noOverflow: bool)
    requires 1 <= |adder| <= |sum| && (noOverflow || |adder| < |sum|)
    modifies circuit
    ensures circuit.instructions
         == old(circuit.instructions) + AdderGates(cIn, adder, Written(adder, sum, noOverflow))
  {
    ghost var n, target, before := |adder|, Written(adder, sum, noOverflow), circuit.instructions;
    ghost var open, core, close := OpenBit(cIn, adder, target), CarryOut(cIn, adder, target), CloseBit(cIn, adder, target);
    SweepForward(circuit, adder, sum[..if noOverflow then |adder| else |adder| + 1], cIn);
    if !noOverflow {
      circuit.AddInstruction(CX(adder[|adder| - 1], sum[|adder|]));
    }
    assert circuit.instructions == before + Openers(open, n) + core;
    SweepBackward(circuit, adder, sum[..if noOverflow then |adder| else |adder| + 1], cIn);
    NestFromZero(open, core, close, n);
    Associate(before, Openers(open, n), core, Closers(close, n));
  }
}
