/** Operations under on- and off-controls. */
module Controls {
  import opened Registers
  import opened Gates
  import opened Inverse
  import opened Footprints
  import opened Subtraction

  /** Every on-control holds 1 and every off-control 0. */
  predicate Enabled(s: State, on: seq<Qubit>, off: seq<Qubit>) {
    AllOn(s, on) && forall q :: q in off ==> q !in s
  }

  /**
   * The common frame of the controlled circuits: off-controls are inverted around a C-U over
   * all controls; with no controls at all the operation is added as it is.
   */
  function Guarded(on: seq<Qubit>, off: seq<Qubit>, body: seq<Gate>, plain: seq<Gate>): seq<Gate> {
    XLayer(off) + (if on == [] && off == [] then plain else [Controlled(on + off, body)]) + XLayer(off)
  }

  /** The controls a circuit can be given: off-controls listed once and not also as on-controls. */
  predicate Consistent(on: seq<Qubit>, off: seq<Qubit>) {
    Distinct(off) && Disjoint(on, off)
  }

  lemma EnabledIsAllOn(on: seq<Qubit>, off: seq<Qubit>, s: State)
    requires Disjoint(on, off)
    ensures AllOn(Complement(s, off), on + off) <==> Enabled(s, on, off)
  {
    var t := Complement(s, off);
    assert forall q :: q in on + off <==> q in on || q in off;
  }

  lemma ComplementTwice(s: State, reg: seq<Qubit>)
    ensures Complement(Complement(s, reg), reg) == s
  {}

  lemma ComplementAround(s: State, off: seq<Qubit>, reg: seq<Qubit>, v: int)
    requires Distinct(reg) && Disjoint(off, reg)
    ensures Complement(Write(Complement(s, off), reg, v), off) == Write(s, reg, v)
  {
    var t := Write(Complement(s, off), reg, v);
    var u := Complement(t, off);
    HoldsAgree(t, u, reg, v);
    forall q | q !in reg
      ensures q in u <==> q in s
    {
      assert q in t <==> q in Complement(s, off);
    }
    WriteUnique(s, u, reg, v);
  }

  /** A conditional write between two inversions of the off-controls. */
  lemma SandwichWrites(on: seq<Qubit>, off: seq<Qubit>, middle: seq<Gate>, reg: seq<Qubit>, v: int, s: State)
    requires Consistent(on, off) && Distinct(reg) && Disjoint(off, reg)
    requires Run(middle, Complement(s, off))
          == if AllOn(Complement(s, off), on + off) then Write(Complement(s, off), reg, v) else Complement(s, off)
    ensures Run(XLayer(off) + middle + XLayer(off), s) == if Enabled(s, on, off) then Write(s, reg, v) else s
  {
    var s1 := Complement(s, off);
    RunAround(XLayer(off), middle, XLayer(off), s);
    RunXLayer(off, s);
    RunXLayer(off, Run(middle, s1));
    EnabledIsAllOn(on, off, s);
    ComplementTwice(s, off);
    ComplementAround(s, off, reg, v);
  }

  /**
   * Control lifting: an operation that writes v to reg, put under controls that reg does not
   * contain, writes v when the controls are enabled and is the identity otherwise.
   */
  lemma GuardedWrites(on: seq<Qubit>, off: seq<Qubit>, body: seq<Gate>, plain: seq<Gate>, reg: seq<Qubit>, v: int, s: State)
    requires Consistent(on, off) && Distinct(reg) && Disjoint(off, reg)
    requires Run(body, Complement(s, off)) == Write(Complement(s, off), reg, v)
    requires on == [] && off == [] ==> Run(plain, s) == Run(body, s)
    ensures Run(Guarded(on, off, body, plain), s) == if Enabled(s, on, off) then Write(s, reg, v) else s
  {
    if on == [] && off == [] {
      assert Complement(s, off) == s;
      SandwichWrites(on, off, plain, reg, v, s);
    } else {
      RunOne(Controlled(on + off, body), Complement(s, off));
      SandwichWrites(on, off, [Controlled(on + off, body)], reg, v, s);
    }
  }

  /** Control lifting for any body that does not care about the off-controls: run it when enabled, else nothing. */
  lemma GuardedRuns(on: seq<Qubit>, off: seq<Qubit>, body: seq<Gate>, s: State)
    requires Consistent(on, off) && Spares(body, off, s)
    ensures Run(Guarded(on, off, body, [Block(body)]), s) == if Enabled(s, on, off) then Run(body, s) else s
  {
    var s1, middle := Complement(s, off), if on == [] && off == [] then [Block(body)] else [Controlled(on + off, body)];
    RunAround(XLayer(off), middle, XLayer(off), s);
    RunXLayer(off, s);
    RunXLayer(off, Run(middle, s1));
    RunOne(middle[0], s1);
    EnabledIsAllOn(on, off, s);
    ComplementTwice(s, off);
    ComplementTwice(Run(body, s), off);
  }

  /** Inverting the qubits of off before body is inverting them after it. */
  ghost predicate Spares(body: seq<Gate>, off: seq<Qubit>, s: State) {
    Run(body, Complement(s, off)) == Complement(Run(body, s), off)
  }

  lemma UnmentionedSpared(body: seq<Gate>, off: seq<Qubit>, s: State)
    requires Distinct(off) && Mentions(body) !! QubitSet(off)
    ensures Spares(body, off, s)
  {
    XLayerMentions(off);
    RunCommute(body, XLayer(off), s);
    RunXLayer(off, s);
    RunXLayer(off, Run(body, s));
  }

  // ---------------------------------------------------------------- ControlledSubtraction::expand

  function ControlledSubtractGates(larger: seq<Qubit>, smaller: seq<Qubit>, ancilla: Option<Qubit>,
                                   on: seq<Qubit>, off: seq<Qubit>): seq<Gate>
    requires Accepts(larger, smaller)
  {
    var sub := [Block(SubtractGates(larger, smaller, ancilla))];
    Guarded(on, off, sub, [Block(sub)])
  }

  predicate Outside(controls: seq<Qubit>, larger: seq<Qubit>, smaller: seq<Qubit>, ancilla: Option<Qubit>) {
    Disjoint(controls, larger) && Disjoint(controls, smaller) && (ancilla.Some? ==> ancilla.value !in controls)
  }

  /** Subtraction when enabled, nothing otherwise. */
  lemma ControlledSubtractActs(larger: seq<Qubit>, smaller: seq<Qubit>, ancilla: Option<Qubit>,
                               on: seq<Qubit>, off: seq<Qubit>, s: State)
    requires Accepts(larger, smaller) && UsableAncilla(larger, smaller, ancilla)
    requires Consistent(on, off) && Outside(off, larger, smaller, ancilla)
    ensures Run(ControlledSubtractGates(larger, smaller, ancilla, on, off), s)
         == if Enabled(s, on, off)
            then Write(s, larger, Difference(s, larger, smaller, BorrowBit(s, ancilla)))
            else s
  {
    var gates := SubtractGates(larger, smaller, ancilla);
    var s1 := Complement(s, off);
    RunOne(Block(gates), s1);
    RunOne(Block(gates), s);
    RunOne(Block([Block(gates)]), s);
    SubtractSubtracts(larger, smaller, ancilla, s1);
    ValAgree(s1, s, larger);
    ValAgree(s1, s, smaller);
    GuardedWrites(on, off, [Block(gates)], [Block([Block(gates)])], larger,
                  Difference(s, larger, smaller, BorrowBit(s, ancilla)), s);
  }

  method ExpandControlledSubtraction(circuit: Composite, qubitsLarger: seq<Qubit>, qubitsSmaller: seq<Qubit>,
                                     ancilla: Option<Qubit>, on: seq<Qubit>, off: seq<Qubit>, isLSB: bool)
    returns (ok: bool)
    requires UsableAncilla(qubitsLarger, qubitsSmaller, ancilla)
    modifies circuit
    ensures ok <==> Accepts(qubitsLarger, qubitsSmaller)
    ensures ok ==> Accepts(Oriented(qubitsLarger, isLSB), Oriented(qubitsSmaller, isLSB))
    ensures ok ==> circuit.instructions == old(circuit.instructions)
                   + ControlledSubtractGates(Oriented(qubitsLarger, isLSB), Oriented(qubitsSmaller, isLSB), ancilla, on, off)
    ensures !ok ==> circuit.instructions == old(circuit.instructions)
  {
    if |qubitsLarger| != |qubitsSmaller| { return false; }
    if !Distinct(qubitsLarger) || !Distinct(qubitsSmaller) { return false; }
    if exists q :: q in qubitsLarger && q in qubitsSmaller { return false; }
    var larger, smaller := Oriented(qubitsLarger, isLSB), Oriented(qubitsSmaller, isLSB);
    OrientedSeparate(qubitsLarger, qubitsSmaller, isLSB);
    ghost var before := circuit.instructions;
    AddXLayer(circuit, off);
    var body := new Composite();
    var sub := new Composite();
    var ok' := ExpandSubtraction(sub, larger, smaller, ancilla, true);
    assert sub.instructions == SubtractGates(larger, smaller, ancilla);
    body.AddInstruction(Block(sub.instructions));
    assert body.instructions == [Block(SubtractGates(larger, smaller, ancilla))];
    AddGuarded(circuit, on, off, body.instructions, [Block(body.instructions)], before);
    return true;
  }

  /** The part of the frame after the off-controls have been inverted. */
  method AddGuarded(circuit: Composite, on: seq<Qubit>, off: seq<Qubit>, body: seq<Gate>, plain: seq<Gate>,
                    ghost before: seq<Gate>)
    requires circuit.instructions == before + XLayer(off)
    modifies circuit
    ensures circuit.instructions == before + Guarded(on, off, body, plain)
  {
    ghost var middle := if on == [] && off == [] then plain else [Controlled(on + off, body)];
    if |on| > 0 || |off| > 0 {
      var controls := on;
      for i := 0 to |off|
        invariant controls == on + off[..i]
      {
        controls := controls + [off[i]];
      }
      assert off[..|off|] == off;
      circuit.AddInstruction(Controlled(controls, body));
    } else {
      circuit.AddInstructions(plain);
    }
    AddXLayer(circuit, off);
    Associate(before, XLayer(off), middle, XLayer(off));
  }
}
