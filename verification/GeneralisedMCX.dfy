/** X under on- and off-controls. */
module GeneralisedMCX {
  import opened Registers
  import opened Gates
  import opened Controls

  function MCXGates(target: Qubit, on: seq<Qubit>, off: seq<Qubit>): seq<Gate> {
    Guarded(on, off, [X(target)], [X(target)])
  }

  /** The target is inverted exactly when the controls are enabled; nothing else ever changes. */
  lemma MCXFlips(target: Qubit, on: seq<Qubit>, off: seq<Qubit>, s: State)
    requires Consistent(on, off) && target !in off
    ensures Run(MCXGates(target, on, off), s) == if Enabled(s, on, off) then Flip(s, target) else s
  {
    var s1 := Complement(s, off);
    var v := if target in s then 0 else 1;
    assert Flip(s, target) == Write(s, [target], v) by { FlipIsWrite(s, target, v); }
    FlipIsWrite(s1, target, v);
    RunOne(X(target), s1);
    GuardedWrites(on, off, [X(target)], [X(target)], [target], v, s);
  }

  lemma FlipIsWrite(s: State, q: Qubit, v: int)
    requires v == if q in s then 0 else 1
    ensures Flip(s, q) == Write(s, [q], v)
  {
    var reg := [q];
    assert reg[0] == q && reg[1..] == [];
    WriteUnique(s, Flip(s, q), reg, v);
  }

  method ExpandGeneralisedMCX(circuit: Composite, target: Qubit, on: seq<Qubit>, off: seq<Qubit>)
    modifies circuit
    ensures circuit.instructions == old(circuit.instructions) + MCXGates(target, on, off)
  {
    ghost var before := circuit.instructions;
    AddXLayer(circuit, off);
    AddGuarded(circuit, on, off, [X(target)], [X(target)], before);
  }
}
