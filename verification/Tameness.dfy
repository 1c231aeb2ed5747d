/**
 * The adder flips qubits of its own registers only, and never one that controls it. Circuits built
 * from tame parts are tame, and a tame circuit under controls outside its registers can be taken
 * gate by gate or as one block, and can be inverted by reversing its leaves. The arithmetic circuits
 * rely on this when they put an adder under controls.
 */
module Tameness {
  import opened Registers
  import opened Gates
  import opened RippleAdder
  import opened Inverse

  lemma TameAdder(c: Qubit, a: seq<Qubit>, b: seq<Qubit>, qubits: set<Qubit>)
    requires |a| <= |b| <= |a| + 1 && Separate(c, a, b)
    requires {c} + QubitSet(a) + QubitSet(b) <= qubits
    ensures Tame(AdderGates(c, a, b), qubits)
  {
    var open, close := OpenBit(c, a, b), CloseBit(c, a, b);
    forall i: nat | i < |a|
      ensures Tame(open(i), qubits) && Tame(close(i), qubits)
    {
      var x := CarryInto(c, a, i);
      assert a[i] in a && b[i] in b && (x == c || x in a);
      TameRound(x, b[i], a[i], qubits);
    }
    if |a| < |b| {
      var x := CarryInto(c, a, |a|);
      assert b[|a|] in b && (x == c || x in a);
      TameOne(CX(x, b[|a|]), qubits);
    }
    TameNest(open, CarryOut(c, a, b), close, 0, |a|, qubits);
  }

  lemma TameRound(a: Qubit, b: Qubit, c: Qubit, qubits: set<Qubit>)
    requires a != b && a != c && b != c && {a, b, c} <= qubits
    ensures Tame(Majority(a, b, c), qubits) && Tame(Unmajority(a, b, c), qubits)
  {
    var toffoli := Controlled([b, a], [X(c)]);
    TameOne(X(c), {c});
    TameOne(toffoli, qubits);
    TameOne(CX(c, b), qubits);
    TameOne(CX(c, a), qubits);
    TameOne(CX(a, b), qubits);
    TameConcat([CX(c, b)], [CX(c, a)], qubits);
    TameConcat([CX(c, b)] + [CX(c, a)], [toffoli], qubits);
    assert Majority(a, b, c) == [CX(c, b)] + [CX(c, a)] + [toffoli];
    TameConcat([toffoli], [CX(c, a)], qubits);
    TameConcat([toffoli] + [CX(c, a)], [CX(a, b)], qubits);
    assert Unmajority(a, b, c) == [toffoli] + [CX(c, a)] + [CX(a, b)];
  }
}
