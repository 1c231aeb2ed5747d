/** The ripple adder with extra controls on every gate. */
module ControlledAddition {
  import opened Registers
  import opened Gates
  import opened RippleAdder
  import opened Controls
  import opened Inverse
  import opened Tameness

  /** Running lifted is running plain when every control is on, and doing nothing otherwise. */
  ghost predicate Lifts(lifted: seq<Gate>, plain: seq<Gate>, controls: seq<Qubit>) {
    forall s :: Run(lifted, s) == if AllOn(s, controls) then Run(plain, s) else s
  }

  /** plain flips none of the controls. */
  ghost predicate Keeps(plain: seq<Gate>, controls: seq<Qubit>) {
    forall s :: AllOn(Run(plain, s), controls) <==> AllOn(s, controls)
  }

  lemma LiftsConcat(a: seq<Gate>, b: seq<Gate>, a': seq<Gate>, b': seq<Gate>, controls: seq<Qubit>)
    requires Lifts(a', a, controls) && Lifts(b', b, controls) && Keeps(a, controls) && Keeps(b, controls)
    ensures Lifts(a' + b', a + b, controls) && Keeps(a + b, controls)
  {
    forall s
      ensures Run(a' + b', s) == if AllOn(s, controls) then Run(a + b, s) else s
      ensures AllOn(Run(a + b, s), controls) <==> AllOn(s, controls)
    {
      RunConcat(a', b', s);
      RunConcat(a, b, s);
    }
  }

  /** A flip of t under some controls of its own, given more. */
  lemma LiftsFlip(own: seq<Qubit>, t: Qubit, plain: Gate, controls: seq<Qubit>)
    requires t !in controls
    requires forall s :: Apply(plain, s) == if AllOn(s, own) then Flip(s, t) else s
    ensures Lifts([Controlled(controls + own, [X(t)])], [plain], controls) && Keeps([plain], controls)
  {
    var lifted := Controlled(controls + own, [X(t)]);
    forall s
      ensures Run([lifted], s) == if AllOn(s, controls) then Run([plain], s) else s
      ensures AllOn(Run([plain], s), controls) <==> AllOn(s, controls)
    {
      RunOne(lifted, s);
      RunOne(X(t), s);
      RunOne(plain, s);
      assert AllOn(s, controls + own) <==> AllOn(s, controls) && AllOn(s, own) by {
        assert forall q :: q in controls + own <==> q in controls || q in own;
      }
    }
  }

  lemma LiftsCX(c: Qubit, t: Qubit, controls: seq<Qubit>)
    requires t !in controls
    ensures Lifts([Controlled(controls + [c], [X(t)])], [CX(c, t)], controls) && Keeps([CX(c, t)], controls)
  {
    LiftsFlip([c], t, CX(c, t), controls);
  }

  lemma LiftsToffoli(a: Qubit, b: Qubit, t: Qubit, controls: seq<Qubit>)
    requires t !in controls
    ensures Lifts([Controlled(controls + [a, b], [X(t)])], [Controlled([b, a], [X(t)])], controls)
    ensures Keeps([Controlled([b, a], [X(t)])], controls)
  {
    forall s
      ensures Apply(Controlled([b, a], [X(t)]), s) == if AllOn(s, [a, b]) then Flip(s, t) else s
    {
      RunOne(X(t), s);
      assert AllOn(s, [a, b]) <==> a in s && b in s;
      assert AllOn(s, [b, a]) <==> a in s && b in s;
    }
    LiftsFlip([a, b], t, Controlled([b, a], [X(t)]), controls);
  }

  lemma TameFlip(controls: seq<Qubit>, t: Qubit, qubits: set<Qubit>)
    requires t !in controls && t in qubits
    ensures Tame([Controlled(controls, [X(t)])], qubits)
  {
    TameOne(X(t), {t});
    TameOne(Controlled(controls, [X(t)]), qubits);
  }

  method ControlledMajority(a: Qubit, b: Qubit, c: Qubit, controls: seq<Qubit>, ghost qubits: set<Qubit>)
    returns (gates: seq<Gate>)
    requires a !in controls && b !in controls && c !in controls
    requires a != b && a != c && b != c && {a, b, c} <= qubits
    ensures Lifts(gates, Majority(a, b, c), controls) && Keeps(Majority(a, b, c), controls)
    ensures Tame(gates, qubits)
  {
    var mcx1 := Controlled(controls + [c], [X(b)]);
    var mcx2 := Controlled(controls + [c], [X(a)]);
    var mcx3 := Controlled(controls + [a, b], [X(c)]);
    gates := [mcx1] + [mcx2] + [mcx3];
    LiftsCX(c, b, controls);
    LiftsCX(c, a, controls);
    LiftsToffoli(a, b, c, controls);
    LiftsConcat([CX(c, b)], [CX(c, a)], [mcx1], [mcx2], controls);
    LiftsConcat([CX(c, b)] + [CX(c, a)], [Controlled([b, a], [X(c)])], [mcx1] + [mcx2], [mcx3], controls);
    assert Majority(a, b, c) == [CX(c, b)] + [CX(c, a)] + [Controlled([b, a], [X(c)])];
    TameThree(controls + [c], b, controls + [c], a, controls + [a, b], c, qubits);
  }

  method ControlledUnmajority(a: Qubit, b: Qubit, c: Qubit, controls: seq<Qubit>, ghost qubits: set<Qubit>)
    returns (gates: seq<Gate>)
    requires a !in controls && b !in controls && c !in controls
    requires a != b && a != c && b != c && {a, b, c} <= qubits
    ensures Lifts(gates, Unmajority(a, b, c), controls) && Keeps(Unmajority(a, b, c), controls)
    ensures Tame(gates, qubits)
  {
    var mcx1 := Controlled(controls + [a, b], [X(c)]);
    var mcx2 := Controlled(controls + [c], [X(a)]);
    var mcx3 := Controlled(controls + [a], [X(b)]);
    gates := [mcx1] + [mcx2] + [mcx3];
    LiftsToffoli(a, b, c, controls);
    LiftsCX(c, a, controls);
    LiftsCX(a, b, controls);
    LiftsConcat([Controlled([b, a], [X(c)])], [CX(c, a)], [mcx1], [mcx2], controls);
    LiftsConcat([Controlled([b, a], [X(c)])] + [CX(c, a)], [CX(a, b)], [mcx1] + [mcx2], [mcx3], controls);
    assert Unmajority(a, b, c) == [Controlled([b, a], [X(c)])] + [CX(c, a)] + [CX(a, b)];
    TameThree(controls + [a, b], c, controls + [c], a, controls + [a], b, qubits);
  }

  lemma TameThree(c1: seq<Qubit>, t1: Qubit, c2: seq<Qubit>, t2: Qubit, c3: seq<Qubit>, t3: Qubit, qubits: set<Qubit>)
    requires t1 !in c1 && t2 !in c2 && t3 !in c3 && {t1, t2, t3} <= qubits
    ensures Tame([Controlled(c1, [X(t1)])] + [Controlled(c2, [X(t2)])] + [Controlled(c3, [X(t3)])], qubits)
  {
    var g1, g2, g3 := [Controlled(c1, [X(t1)])], [Controlled(c2, [X(t2)])], [Controlled(c3, [X(t3)])];
    TameFlip(c1, t1, qubits);
    TameFlip(c2, t2, qubits);
    TameFlip(c3, t3, qubits);
    TameConcat(g1, g2, qubits);
    TameConcat(g1 + g2, g3, qubits);
  }

  /** The gates of lifted, emitted so far, and the plain gates they stand for. */
  ghost predicate Tracks(lifted: seq<Gate>, plain: seq<Gate>, controls: seq<Qubit>, qubits: set<Qubit>) {
    Lifts(lifted, plain, controls) && Keeps(plain, controls) && Tame(lifted, qubits)
  }

  lemma TracksConcat(a: seq<Gate>, b: seq<Gate>, a': seq<Gate>, b': seq<Gate>, controls: seq<Qubit>, qubits: set<Qubit>)
    requires Tracks(a', a, controls, qubits) && Tracks(b', b, controls, qubits)
    ensures Tracks(a' + b', a + b, controls, qubits)
  {
    LiftsConcat(a, b, a', b', controls);
    TameConcat(a', b', qubits);
  }

  ghost predicate Wired(cIn: Qubit, adder: seq<Qubit>, sum: seq<Qubit>, controls: seq<Qubit>, qubits: set<Qubit>) {
    && 1 <= |adder| <= |sum| <= |adder| + 1
    && Separate(cIn, adder, sum)
    && Disjoint(adder, controls) && Disjoint(sum, controls) && cIn !in controls
    && {cIn} + QubitSet(adder) + QubitSet(sum) <= qubits
  }

  /** The wires of bit i are three different qubits outside the controls. */
  lemma BitWires(cIn: Qubit, adder: seq<Qubit>, sum: seq<Qubit>, controls: seq<Qubit>, qubits: set<Qubit>, i: nat)
    requires Wired(cIn, adder, sum, controls, qubits) && i < |adder|
    ensures var x := CarryInto(cIn, adder, i);
            && x != sum[i] && x != adder[i] && sum[i] != adder[i] && {x, sum[i], adder[i]} <= qubits
            && x !in controls && sum[i] !in controls && adder[i] !in controls
  {
    assert adder[i] in adder && sum[i] in sum;
    if i > 0 { assert adder[i - 1] in adder; }
  }

  /** Adds the controlled majority of bit i. */
  method OpenBitControlled(sofar: seq<Gate>, ghost plain: seq<Gate>, cIn: Qubit, adder: seq<Qubit>, sum: seq<Qubit>,
                           controls: seq<Qubit>, i: nat, ghost qubits: set<Qubit>)
    returns (gates: seq<Gate>, ghost plain': seq<Gate>)
    requires Wired(cIn, adder, sum, controls, qubits) && i < |adder|
    requires Tracks(sofar, plain, controls, qubits) && plain == Openers(OpenBit(cIn, adder, sum), i)
    ensures Tracks(gates, plain', controls, qubits) && plain' == Openers(OpenBit(cIn, adder, sum), i + 1)
  {
    var x := CarryInto(cIn, adder, i);
    BitWires(cIn, adder, sum, controls, qubits, i);
    var more := ControlledMajority(x, sum[i], adder[i], controls, qubits);
    TracksConcat(plain, Majority(x, sum[i], adder[i]), sofar, more, controls, qubits);
    gates, plain' := sofar + more, plain + Majority(x, sum[i], adder[i]);
  }

  /** Adds the controlled unmajority of bit i, after those of the bits above. */
  method CloseBitControlled(sofar: seq<Gate>, ghost plain: seq<Gate>, cIn: Qubit, adder: seq<Qubit>, sum: seq<Qubit>,
                            controls: seq<Qubit>, i: nat, ghost qubits: set<Qubit>)
    returns (gates: seq<Gate>, ghost plain': seq<Gate>)
    requires Wired(cIn, adder, sum, controls, qubits) && i < |adder|
    requires Tracks(sofar, plain, controls, qubits)
    ensures Tracks(gates, plain', controls, qubits)
    ensures plain' + Closers(CloseBit(cIn, adder, sum), i) == plain + Closers(CloseBit(cIn, adder, sum), i + 1)
  {
    var x := CarryInto(cIn, adder, i);
    BitWires(cIn, adder, sum, controls, qubits, i);
    var more := ControlledUnmajority(x, sum[i], adder[i], controls, qubits);
    TracksConcat(plain, Unmajority(x, sum[i], adder[i]), sofar, more, controls, qubits);
    EmitCloser(plain, Unmajority(x, sum[i], adder[i]), CloseBit(cIn, adder, sum), i);
    gates, plain' := sofar + more, plain + Unmajority(x, sum[i], adder[i]);
  }

  lemma TracksNothing(controls: seq<Qubit>, qubits: set<Qubit>)
    ensures Tracks([], [], controls, qubits)
  {}

  method ControlledForward(cIn: Qubit, adder: seq<Qubit>, sum: seq<Qubit>, controls: seq<Qubit>, ghost qubits: set<Qubit>)
    returns (gates: seq<Gate>, ghost plain: seq<Gate>)
    requires Wired(cIn, adder, sum, controls, qubits)
    ensures Tracks(gates, plain, controls, qubits) && plain == Openers(OpenBit(cIn, adder, sum), |adder|)
  {
    TracksNothing(controls, qubits);
    gates, plain := OpenBitControlled([], [], cIn, adder, sum, controls, 0, qubits);
    var j := 0;
    while j < |adder| - 1
      invariant 0 <= j < |adder|
      invariant Tracks(gates, plain, controls, qubits) && plain == Openers(OpenBit(cIn, adder, sum), j + 1)
    {
      gates, plain := OpenBitControlled(gates, plain, cIn, adder, sum, controls, j + 1, qubits);
      j := j + 1;
    }
  }

  method ControlledBackward(cIn: Qubit, adder: seq<Qubit>, sum: seq<Qubit>, controls: seq<Qubit>, ghost qubits: set<Qubit>)
    returns (gates: seq<Gate>, ghost plain: seq<Gate>)
    requires Wired(cIn, adder, sum, controls, qubits)
    ensures Tracks(gates, plain, controls, qubits) && plain == Closers(CloseBit(cIn, adder, sum), |adder|)
  {
    ghost var whole := Closers(CloseBit(cIn, adder, sum), |adder|);
    TracksNothing(controls, qubits);
    gates, plain := [], [];
    var j := |adder| - 2;
    while j >= 0
      invariant -1 <= j <= |adder| - 2
      invariant Tracks(gates, plain, controls, qubits)
      invariant plain + Closers(CloseBit(cIn, adder, sum), j + 2) == whole
    {
      gates, plain := CloseBitControlled(gates, plain, cIn, adder, sum, controls, j + 1, qubits);
      j := j - 1;
    }
    gates, plain := CloseBitControlled(gates, plain, cIn, adder, sum, controls, 0, qubits);
    assert plain + [] == plain;
  }

  /** The qubits the controlled adder writes: the overflow goes to the last qubit of the sum register. */
  function ControlledTarget(adder: seq<Qubit>, sum: seq<Qubit>, noOverflow: bool): seq<Qubit>
    requires |adder| <= |sum| && (noOverflow || |adder| < |sum|)
  {
    if noOverflow then sum[..|adder|] else sum[..|adder|] + [sum[|sum| - 1]]
  }

  lemma TargetSeparate(cIn: Qubit, adder: seq<Qubit>, sum: seq<Qubit>, noOverflow: bool)
    requires RippleAdder.Accepts(adder, sum, cIn, noOverflow)
    ensures Separate(cIn, adder, ControlledTarget(adder, sum, noOverflow))
    ensures forall q :: q in ControlledTarget(adder, sum, noOverflow) ==> q in sum
  {
    var target := ControlledTarget(adder, sum, noOverflow);
    forall q | q in target
      ensures q in sum
    {
      if q !in sum[..|adder|] { assert q == sum[|sum| - 1]; }
    }
    assert Disjoint(adder, target) by {
      forall q | q in adder
        ensures q !in target
      {
        assert q !in sum;
      }
    }
  }

  method CarryControlled(sofar: seq<Gate>, ghost plain: seq<Gate>, c: Qubit, t: Qubit, controls: seq<Qubit>,
                         ghost qubits: set<Qubit>)
    returns (gates: seq<Gate>)
    requires Tracks(sofar, plain, controls, qubits) && t !in controls && t != c && t in qubits
    ensures Tracks(gates, plain + [CX(c, t)], controls, qubits)
  {
    var carry := Controlled(controls + [c], [X(t)]);
    LiftsCX(c, t, controls);
    TameFlip(controls + [c], t, qubits);
    TracksConcat(plain, [CX(c, t)], sofar, [carry], controls, qubits);
    gates := sofar + [carry];
  }

  method BuildControlledAdder(cIn: Qubit, adder: seq<Qubit>, sum: seq<Qubit>, controls: seq<Qubit>, noOverflow: bool,
                              ghost qubits: set<Qubit>)
    returns (gates: seq<Gate>)
    requires |adder| >= 1 && RippleAdder.Accepts(adder, sum, cIn, noOverflow)
    requires Disjoint(adder, controls) && Disjoint(sum, controls) && cIn !in controls
    requires {cIn} + QubitSet(adder) + QubitSet(sum) <= qubits
    ensures Tracks(gates, AdderGates(cIn, adder, ControlledTarget(adder, sum, noOverflow)), controls, qubits)
  {
    var target := ControlledTarget(adder, sum, noOverflow);
    TargetSeparate(cIn, adder, sum, noOverflow);
    ghost var open, core, close := OpenBit(cIn, adder, target), CarryOut(cIn, adder, target), CloseBit(cIn, adder, target);
    ghost var plain, back;
    gates, plain := ControlledForward(cIn, adder, target, controls, qubits);
    if !noOverflow {
      assert adder[|adder| - 1] in adder && sum[|sum| - 1] in sum && sum[|sum| - 1] !in adder;
      gates := CarryControlled(gates, plain, adder[|adder| - 1], sum[|sum| - 1], controls, qubits);
      assert core == [CX(adder[|adder| - 1], sum[|sum| - 1])];
    } else {
      assert plain + core == plain;
    }
    var rest;
    rest, back := ControlledBackward(cIn, adder, target, controls, qubits);
    TracksConcat(plain + core, back, gates, rest, controls, qubits);
    NestFromZero(open, core, close, |adder|);
    gates := gates + rest;
  }

  // ---------------------------------------------------------------- ControlledAddition::expand

  /** Where the sum goes: with flags the overflow is the last qubit of sum, without them the one after adder's width. */
  function SumTarget(adder: seq<Qubit>, sum: seq<Qubit>, flagged: bool, noOverflow: bool): seq<Qubit>
    requires |adder| <= |sum| && (noOverflow || |adder| < |sum|)
  {
    if flagged then ControlledTarget(adder, sum, noOverflow) else Written(adder, sum, noOverflow)
  }

  ghost function Added(s: State, cIn: Qubit, adder: seq<Qubit>, target: seq<Qubit>): State
    requires Distinct(target)
  {
    Write(s, target, Total(s, cIn, adder, target))
  }

  lemma WrittenSeparate(cIn: Qubit, adder: seq<Qubit>, sum: seq<Qubit>, noOverflow: bool)
    requires RippleAdder.Accepts(adder, sum, cIn, noOverflow)
    ensures Separate(cIn, adder, Written(adder, sum, noOverflow))
    ensures forall q :: q in Written(adder, sum, noOverflow) ==> q in sum
  {}

  lemma LiftedAdds(cIn: Qubit, adder: seq<Qubit>, target: seq<Qubit>, on: seq<Qubit>, off: seq<Qubit>, gates: seq<Gate>, s: State)
    requires |adder| <= |target| <= |adder| + 1 && Separate(cIn, adder, target)
    requires Consistent(on, off) && Disjoint(off, adder) && Disjoint(off, target) && cIn !in off
    requires Lifts(gates, AdderGates(cIn, adder, target), on + off)
    ensures Run(XLayer(off) + gates + XLayer(off), s) == if Enabled(s, on, off) then Added(s, cIn, adder, target) else s
  {
    var s1 := Complement(s, off);
    AdderAdds(cIn, adder, target, s1);
    ValAgree(s1, s, adder);
    ValAgree(s1, s, target);
    assert Total(s1, cIn, adder, target) == Total(s, cIn, adder, target);
    SandwichWrites(on, off, gates, target, Total(s, cIn, adder, target), s);
  }

  /** Adds when every on-flag is 1 and every off-flag 0; otherwise the circuit changes nothing. */
  method BuildControlledAddition(adder: seq<Qubit>, sum: seq<Qubit>, cIn: Qubit, on: seq<Qubit>, off: seq<Qubit>,
                                 noOverflow: bool)
    returns (gates: seq<Gate>)
    requires |adder| >= 1 && RippleAdder.Accepts(adder, sum, cIn, noOverflow)
    requires Consistent(on, off)
    requires Disjoint(adder, on + off) && Disjoint(sum, on + off) && cIn !in on + off
    ensures var target := SumTarget(adder, sum, on != [] || off != [], noOverflow);
            Distinct(target) && forall s :: Run(gates, s) == if Enabled(s, on, off) then Added(s, cIn, adder, target) else s
    ensures Tame(gates, {cIn} + QubitSet(adder) + QubitSet(sum) + QubitSet(off))
  {
    if on != [] || off != [] {
      gates := BuildFlagged(adder, sum, cIn, on, off, noOverflow);
    } else {
      gates := BuildPlain(adder, sum, cIn, noOverflow);
    }
  }

  lemma FlaggedTame(off: seq<Qubit>, inner: seq<Gate>, qubits: set<Qubit>)
    requires Tame(inner, qubits) && QubitSet(off) <= qubits
    ensures Tame(XLayer(off) + inner + XLayer(off), qubits)
  {
    TameXLayer(off, qubits);
    TameConcat(XLayer(off), inner, qubits);
    TameConcat(XLayer(off) + inner, XLayer(off), qubits);
  }

  /** inner between two inversions of the off-flags. */
  method Sandwich(off: seq<Qubit>, inner: seq<Gate>) returns (gates: seq<Gate>)
    ensures gates == XLayer(off) + inner + XLayer(off)
  {
    var circuit := new Composite();
    AddXLayer(circuit, off);
    circuit.AddInstructions(inner);
    AddXLayer(circuit, off);
    gates := circuit.instructions;
  }

  method BuildFlagged(adder: seq<Qubit>, sum: seq<Qubit>, cIn: Qubit, on: seq<Qubit>, off: seq<Qubit>, noOverflow: bool)
    returns (gates: seq<Gate>)
    requires |adder| >= 1 && RippleAdder.Accepts(adder, sum, cIn, noOverflow)
    requires Consistent(on, off)
    requires Disjoint(adder, on + off) && Disjoint(sum, on + off) && cIn !in on + off
    ensures Separate(cIn, adder, ControlledTarget(adder, sum, noOverflow))
    ensures forall s :: Run(gates, s)
                     == if Enabled(s, on, off) then Added(s, cIn, adder, ControlledTarget(adder, sum, noOverflow)) else s
    ensures Tame(gates, {cIn} + QubitSet(adder) + QubitSet(sum) + QubitSet(off))
  {
    ghost var qubits := {cIn} + QubitSet(adder) + QubitSet(sum) + QubitSet(off);
    var inner := BuildControlledAdder(cIn, adder, sum, on + off, noOverflow, qubits);
    gates := Sandwich(off, inner);
    FlaggedAdds(adder, sum, cIn, on, off, noOverflow, inner);
    FlaggedTame(off, inner, qubits);
  }

  lemma FlaggedAdds(adder: seq<Qubit>, sum: seq<Qubit>, cIn: Qubit, on: seq<Qubit>, off: seq<Qubit>, noOverflow: bool,
                    inner: seq<Gate>)
    requires RippleAdder.Accepts(adder, sum, cIn, noOverflow) && Consistent(on, off)
    requires Disjoint(adder, on + off) && Disjoint(sum, on + off) && cIn !in on + off
    requires Lifts(inner, AdderGates(cIn, adder, ControlledTarget(adder, sum, noOverflow)), on + off)
    ensures Separate(cIn, adder, ControlledTarget(adder, sum, noOverflow))
    ensures forall s :: Run(XLayer(off) + inner + XLayer(off), s)
                     == if Enabled(s, on, off) then Added(s, cIn, adder, ControlledTarget(adder, sum, noOverflow)) else s
  {
    var target := ControlledTarget(adder, sum, noOverflow);
    TargetSeparate(cIn, adder, sum, noOverflow);
    OffOutside(on, off, adder, sum, target);
    forall s
      ensures Run(XLayer(off) + inner + XLayer(off), s) == if Enabled(s, on, off) then Added(s, cIn, adder, target) else s
    {
      LiftedAdds(cIn, adder, target, on, off, inner, s);
    }
  }

  lemma OffOutside(on: seq<Qubit>, off: seq<Qubit>, adder: seq<Qubit>, sum: seq<Qubit>, target: seq<Qubit>)
    requires Disjoint(adder, on + off) && Disjoint(sum, on + off)
    requires forall q :: q in target ==> q in sum
    ensures Disjoint(off, adder) && Disjoint(off, target)
  {
    forall q | q in off
      ensures q !in adder && q !in sum
    {
      assert q in on + off;
    }
  }

  method BuildPlain(adder: seq<Qubit>, sum: seq<Qubit>, cIn: Qubit, noOverflow: bool) returns (gates: seq<Gate>)
    requires |adder| >= 1 && RippleAdder.Accepts(adder, sum, cIn, noOverflow)
    ensures Separate(cIn, adder, Written(adder, sum, noOverflow))
    ensures forall s :: Run(gates, s) == Added(s, cIn, adder, Written(adder, sum, noOverflow))
    ensures Tame(gates, {cIn} + QubitSet(adder) + QubitSet(sum))
  {
    var circuit := new Composite();
    var ok := ExpandRippleCarryAdder(circuit, adder, sum, cIn, noOverflow);
    gates := circuit.instructions;
    ghost var target := Written(adder, sum, noOverflow);
    assert gates == AdderGates(cIn, adder, target);
    WrittenSeparate(cIn, adder, sum, noOverflow);
    forall s
      ensures Run(gates, s) == Added(s, cIn, adder, target)
    {
      AdderAdds(cIn, adder, target, s);
    }
    TameAdder(cIn, adder, target, {cIn} + QubitSet(adder) + QubitSet(sum));
  }

  /**
   * The flagged circuit (flags enabled) and the plain adder agree on every state exactly when
   * the sum register has one qubit more than the adder register.
   */
  lemma OverflowPlace(cIn: Qubit, adder: seq<Qubit>, sum: seq<Qubit>)
    requires RippleAdder.Accepts(adder, sum, cIn, false)
    ensures var plain, flagged := Written(adder, sum, false), ControlledTarget(adder, sum, false);
            && Distinct(plain) && Distinct(flagged)
            && ((forall s :: Added(s, cIn, adder, plain) == Added(s, cIn, adder, flagged)) <==> |sum| == |adder| + 1)
  {
    var n := |adder|;
    var low, place, last := sum[..n], sum[n], sum[|sum| - 1];
    TargetSeparate(cIn, adder, sum, false);
    WrittenSeparate(cIn, adder, sum, false);
    assert Written(adder, sum, false) == low + [place];
    if |sum| == n + 1 {
      assert low + [place] == low + [last];
    } else {
      var s := {cIn} + QubitSet(adder);
      CarryOutOf(s, cIn, adder, low, place);
      CarryOutOf(s, cIn, adder, low, last);
      assert place in Added(s, cIn, adder, low + [place]);
      assert place !in low + [last] && place !in s;
      assert place !in Added(s, cIn, adder, low + [last]);
    }
  }

  /**
   * Without overflow the flagged circuit (flags enabled) and the plain adder agree on every state: the low qubits
   * of sum hold the sum modulo 2^|adder|, and every other qubit is as before.
   */
  lemma NoOverflowAgrees(cIn: Qubit, adder: seq<Qubit>, sum: seq<Qubit>, flagged: bool, s: State)
    requires RippleAdder.Accepts(adder, sum, cIn, true)
    ensures var target := SumTarget(adder, sum, flagged, true);
            && target == sum[..|adder|] && Distinct(target) && AgreeOff(Added(s, cIn, adder, target), s, target)
            && Val(Added(s, cIn, adder, target), target) == Total(s, cIn, adder, target) % Pow2(|adder|)
  {
    var low := sum[..|adder|];
    assert SumTarget(adder, sum, flagged, true) == low;
    WrittenSeparate(cIn, adder, sum, true);
    AddedReads(s, cIn, adder, low, |adder|);
  }

  lemma AddedReads(s: State, cIn: Qubit, adder: seq<Qubit>, target: seq<Qubit>, n: nat)
    requires Distinct(target) && n == |target|
    ensures AgreeOff(Added(s, cIn, adder, target), s, target)
    ensures Val(Added(s, cIn, adder, target), target) == Total(s, cIn, adder, target) % Pow2(n)
  {
    WriteVal(s, target, Total(s, cIn, adder, target));
  }

  /** With overflow and one more qubit in sum, the whole register holds the sum modulo 2^|sum|, flagged or not. */
  lemma OverflowAdds(cIn: Qubit, adder: seq<Qubit>, sum: seq<Qubit>, flagged: bool, s: State)
    requires RippleAdder.Accepts(adder, sum, cIn, false) && |sum| == |adder| + 1
    ensures var target := SumTarget(adder, sum, flagged, false);
            && Distinct(target) && AgreeOff(Added(s, cIn, adder, target), s, sum)
            && Val(Added(s, cIn, adder, target), sum) == Total(s, cIn, adder, sum) % Pow2(|sum|)
  {
    assert SumTarget(adder, sum, flagged, false) == sum;
    AddedReads(s, cIn, adder, sum, |sum|);
  }

  /** All ones plus an incoming carry leave a carry and nothing else. */
  lemma CarryOutOf(s: State, cIn: Qubit, adder: seq<Qubit>, low: seq<Qubit>, top: Qubit)
    requires |low| == |adder| && Separate(cIn, adder, low + [top])
    requires s == {cIn} + QubitSet(adder)
    ensures top in Added(s, cIn, adder, low + [top])
  {
    var target := low + [top];
    var t := Added(s, cIn, adder, target);
    AllOnesVal(s, adder);
    forall q | q in target
      ensures q !in s
    {}
    ZeroVal(s, target);
    ValSnoc(t, low, top);
    ValBound(t, low);
    ReadBack(s, target, Total(s, cIn, adder, target));
  }
}
