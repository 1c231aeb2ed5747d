/** The division under on- and off-controls. */
module ControlledDivision {
  import opened Registers
  import opened Gates
  import opened Controls
  import opened Division
  import opened DivisionValue
  import opened ProperFractionDivision

  /** The controls lie outside everything the division reads or writes. */
  ghost predicate ControlsOutside(d: Wires, controls: seq<Qubit>) {
    Disjoint(controls, d.num) && Disjoint(controls, d.den) && Disjoint(controls, d.res) && d.ancilla !in controls
  }

  lemma QuotientAgrees(s: State, t: State, d: Wires, off: seq<Qubit>)
    requires d.Valid() && ControlsOutside(d, off) && AgreeOff(s, t, off)
    ensures QuotientOf(s, d, 0) == QuotientOf(t, d, 0)
  {
    ValAgree(s, t, d.num);
    ValAgree(s, t, d.den);
    assert Pending(d, 0) == d.res;
    ValAgree(s, t, d.res);
  }

  /** Any circuit that divides, put under controls, divides when enabled and does nothing otherwise. */
  lemma GuardedDivides(d: Wires, on: seq<Qubit>, off: seq<Qubit>, body: seq<Gate>, s: State)
    requires d.Valid() && Consistent(on, off) && ControlsOutside(d, off)
    requires forall t :: Run(body, t) == Write(t, d.res, QuotientOf(t, d, 0))
    ensures Run(Guarded(on, off, body, [Block(body)]), s)
         == if Enabled(s, on, off) then Write(s, d.res, QuotientOf(s, d, 0)) else s
  {
    QuotientAgrees(Complement(s, off), s, d, off);
    RunOne(Block(body), s);
    GuardedWrites(on, off, body, [Block(body)], d.res, QuotientOf(s, d, 0), s);
  }

  /** The controls lie outside the caller's registers. */
  ghost predicate OutsideAll(controls: seq<Qubit>, numerator: seq<Qubit>, denominator: seq<Qubit>, fraction: seq<Qubit>, ancilla: seq<Qubit>) {
    Disjoint(controls, numerator) && Disjoint(controls, denominator) && Disjoint(controls, fraction) && Disjoint(controls, ancilla)
  }

  lemma OutsideLayout(controls: seq<Qubit>, numerator: seq<Qubit>, denominator: seq<Qubit>, fraction: seq<Qubit>,
                      ancilla: seq<Qubit>, isLSB: bool)
    requires |ancilla| == 2 * |fraction| + 1 && OutsideAll(controls, numerator, denominator, fraction, ancilla)
    ensures |Oriented(fraction, isLSB)| == |fraction|
    ensures ControlsOutside(LayoutOf(numerator, denominator, fraction, ancilla, isLSB), controls)
  {
    OrientedMembers(numerator, isLSB);
    OrientedMembers(denominator, isLSB);
    OrientedMembers(fraction, isLSB);
    assert ancilla[2 * |fraction|] in ancilla;
  }

  method ExpandControlledDivision(circuit: Composite, numerator: seq<Qubit>, denominator: seq<Qubit>,
                                  fraction: seq<Qubit>, ancilla: seq<Qubit>, on: seq<Qubit>, off: seq<Qubit>, isLSB: bool)
    returns (ok: bool)
    requires Usable(numerator, denominator, fraction, ancilla)
    requires Consistent(on, off) && OutsideAll(off, numerator, denominator, fraction, ancilla)
    modifies circuit
    ensures ok <==> AcceptsOperands(numerator, denominator)
    ensures ok ==> var d := LayoutOf(numerator, denominator, fraction, ancilla, isLSB);
                   && d.Valid()
                   && forall s ::
                        Run(circuit.instructions, s)
                          == var t := Run(old(circuit.instructions), s);
                             if Enabled(t, on, off) then Write(t, d.res, QuotientOf(t, d, 0)) else t
    ensures ok ==> var num, den, res := Oriented(numerator, isLSB), Oriented(denominator, isLSB), Oriented(fraction, isLSB);
                   Distinct(res) && forall s ::
                     var t := Run(old(circuit.instructions), s);
                     && (!Enabled(t, on, off) ==> Run(circuit.instructions, s) == t)
                     && (Enabled(t, on, off) && Proper(t, num, den, res, ancilla) ==>
                           Run(circuit.instructions, s) == Write(t, res, Floor(|res|, Val(t, num), Val(t, den))))
    ensures !ok ==> circuit.instructions == old(circuit.instructions)
  {
    if |numerator| != |denominator| { return false; }
    if !Distinct(denominator) || !Distinct(numerator) { return false; }
    if exists q :: q in denominator && q in numerator { return false; }
    LayoutsDivide(LayoutOf(numerator, denominator, fraction, ancilla, isLSB), numerator, denominator, fraction, ancilla, isLSB);
    OutsideLayout(off, numerator, denominator, fraction, ancilla, isLSB);
    var d := ExtendRegisters(numerator, denominator, fraction, ancilla, isLSB);
    ghost var before := circuit.instructions;
    AddXLayer(circuit, off);
    var circ := BuildDivision(d);
    AddGuarded(circuit, on, off, circ, [Block(circ)], before);
    forall s
      ensures Run(circuit.instructions, s)
           == var t := Run(before, s); if Enabled(t, on, off) then Write(t, d.res, QuotientOf(t, d, 0)) else t
    {
      RunConcat(before, Guarded(on, off, circ, [Block(circ)]), s);
      GuardedDivides(d, on, off, circ, Run(before, s));
    }
    return true;
  }
}
