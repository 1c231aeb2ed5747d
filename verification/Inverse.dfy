/** Running a circuit backwards: flattened, reversed, leaf by leaf. */
module Inverse {
  import opened Registers
  import opened Gates

  /** The qubits a circuit may flip. */
  function Targets(gs: seq<Gate>): set<Qubit>
    decreases gs, 0
  {
    if gs == [] then {} else TargetsOf(gs[0]) + Targets(gs[1..])
  }

  function TargetsOf(g: Gate): set<Qubit>
    decreases g, 1
  {
    match g
    case X(t) => {t}
    case CX(c, t) => {t}
    case Swap(a, b) => {a, b}
    case Controlled(controls, body) => Targets(body)
    case Block(body) => Targets(body)
  }

  /** No gate flips a qubit that controls it, and no qubit is swapped with itself. */
  predicate WellFormed(gs: seq<Gate>)
    decreases gs, 0
  {
    gs == [] || (WellFormedGate(gs[0]) && WellFormed(gs[1..]))
  }

  predicate WellFormedGate(g: Gate)
    decreases g, 1
  {
    match g
    case X(t) => true
    case CX(c, t) => c != t
    case Swap(a, b) => a != b
    case Controlled(controls, body) => WellFormed(body) && forall q :: q in controls ==> q !in Targets(body)
    case Block(body) => WellFormed(body)
  }

  /** Each gate of gs under the given controls. */
  function UnderControls(controls: seq<Qubit>, gs: seq<Gate>): seq<Gate> {
    if gs == [] then [] else [Controlled(controls, [gs[0]])] + UnderControls(controls, gs[1..])
  }

  /**
   * The leaf gates of a circuit in order. A controlled block yields its leaves one by one
   * under the same controls; an empty one is kept as it is.
   */
  function Flatten(gs: seq<Gate>): seq<Gate>
    decreases gs, 0
  {
    if gs == [] then [] else FlattenGate(gs[0]) + Flatten(gs[1..])
  }

  function FlattenGate(g: Gate): seq<Gate>
    decreases g, 1
  {
    match g
    case X(t) => [g]
    case CX(c, t) => [g]
    case Swap(a, b) => [g]
    case Controlled(controls, body) =>
      var leaves := Flatten(body);
      if leaves == [] then [Controlled(controls, [])] else UnderControls(controls, leaves)
    case Block(body) => Flatten(body)
  }

  function InverseGates(gs: seq<Gate>): seq<Gate> {
    Reverse(Flatten(gs))
  }

  // ---------------------------------------------------------------- flattening

  /** A circuit leaves every qubit outside its targets alone. */
  lemma {:induction false} RunKeeps(gs: seq<Gate>, s: State, q: Qubit)
    requires q !in Targets(gs)
    ensures q in Run(gs, s) <==> q in s
    decreases gs, 0
  {
    if gs != [] {
      ApplyKeeps(gs[0], s, q);
      RunKeeps(gs[1..], Apply(gs[0], s), q);
    }
  }

  lemma {:induction false} ApplyKeeps(g: Gate, s: State, q: Qubit)
    requires q !in TargetsOf(g)
    ensures q in Apply(g, s) <==> q in s
    decreases g, 1
  {
    match g
    case X(t) =>
    case CX(c, t) =>
    case Swap(a, b) =>
    case Controlled(controls, body) => RunKeeps(body, s, q);
    case Block(body) => RunKeeps(body, s, q);
  }

  /** Controlling every gate of a circuit is controlling the circuit. */
  lemma {:induction false} ControlEachGate(controls: seq<Qubit>, gs: seq<Gate>, s: State)
    requires forall q :: q in controls ==> q !in Targets(gs)
    ensures Run(UnderControls(controls, gs), s) == Apply(Controlled(controls, gs), s)
    decreases gs
  {
    if gs != [] {
      var t := if AllOn(s, controls) then Apply(gs[0], s) else s;
      assert UnderControls(controls, gs)[1..] == UnderControls(controls, gs[1..]);
      RunOne(gs[0], s);
      forall q | q in controls
        ensures q in t <==> q in s
      {
        ApplyKeeps(gs[0], s, q);
      }
      ControlEachGate(controls, gs[1..], t);
    }
  }

  lemma {:induction false} TargetsConcat(a: seq<Gate>, b: seq<Gate>)
    ensures Targets(a + b) == Targets(a) + Targets(b)
  {
    if a == [] {
      assert a + b == b;
    } else {
      assert (a + b)[1..] == a[1..] + b;
      TargetsConcat(a[1..], b);
    }
  }

  lemma {:induction false} WellFormedConcat(a: seq<Gate>, b: seq<Gate>)
    ensures WellFormed(a + b) <==> WellFormed(a) && WellFormed(b)
  {
    if a == [] {
      assert a + b == b;
    } else {
      assert (a + b)[1..] == a[1..] + b;
      WellFormedConcat(a[1..], b);
    }
  }

  lemma {:induction false} UnderControlsKeeps(controls: seq<Qubit>, gs: seq<Gate>)
    ensures Targets(UnderControls(controls, gs)) == Targets(gs)
  {
    if gs != [] {
      UnderControlsKeeps(controls, gs[1..]);
      assert UnderControls(controls, gs)[1..] == UnderControls(controls, gs[1..]);
      assert Targets([gs[0]]) == TargetsOf(gs[0]) + Targets([gs[0]][1..]);
    }
  }

  /** Flattening keeps the targets and the meaning. */
  lemma {:induction false} FlattenTargets(gs: seq<Gate>)
    ensures Targets(Flatten(gs)) == Targets(gs)
    decreases gs, 0
  {
    if gs != [] {
      FlattenGateTargets(gs[0]);
      FlattenTargets(gs[1..]);
      TargetsConcat(FlattenGate(gs[0]), Flatten(gs[1..]));
    }
  }

  lemma {:induction false} FlattenGateTargets(g: Gate)
    ensures Targets(FlattenGate(g)) == TargetsOf(g)
    decreases g, 1
  {
    match g
    case X(t) => assert Targets([g]) == {t} + Targets([g][1..]);
    case CX(c, t) => assert Targets([g]) == {t} + Targets([g][1..]);
    case Swap(a, b) => assert Targets([g]) == {a, b} + Targets([g][1..]);
    case Controlled(controls, body) =>
      FlattenTargets(body);
      UnderControlsKeeps(controls, Flatten(body));
      var empty := Controlled(controls, []);
      assert Targets([empty]) == TargetsOf(empty) + Targets([empty][1..]);
    case Block(body) => FlattenTargets(body);
  }

  lemma {:induction false} RunFlatten(gs: seq<Gate>, s: State)
    requires WellFormed(gs)
    ensures Run(Flatten(gs), s) == Run(gs, s)
    decreases gs, 0
  {
    if gs != [] {
      RunFlattenGate(gs[0], s);
      RunFlatten(gs[1..], Apply(gs[0], s));
      RunConcat(FlattenGate(gs[0]), Flatten(gs[1..]), s);
    }
  }

  lemma {:induction false} RunFlattenGate(g: Gate, s: State)
    requires WellFormedGate(g)
    ensures Run(FlattenGate(g), s) == Apply(g, s)
    decreases g, 1
  {
    match g
    case X(t) => RunOne(g, s);
    case CX(c, t) => RunOne(g, s);
    case Swap(a, b) => RunOne(g, s);
    case Controlled(controls, body) =>
      var leaves := Flatten(body);
      RunFlatten(body, s);
      FlattenTargets(body);
      if leaves == [] {
        RunOne(Controlled(controls, []), s);
      } else {
        ControlEachGate(controls, leaves, s);
      }
    case Block(body) => RunFlatten(body, s);
  }

  // ---------------------------------------------------------------- reversing

  /** Leaf gates: single flips and swaps, possibly under (nested) controls that they do not flip. */
  predicate IsLeaf(g: Gate)
    decreases g
  {
    match g
    case X(t) => true
    case CX(c, t) => c != t
    case Swap(a, b) => a != b
    case Controlled(controls, body) =>
      body == [] || (|body| == 1 && IsLeaf(body[0]) && forall q :: q in controls ==> q !in TargetsOf(body[0]))
    case Block(body) => false
  }

  lemma {:induction false} FlattenLeaves(gs: seq<Gate>)
    requires WellFormed(gs)
    ensures forall g :: g in Flatten(gs) ==> IsLeaf(g) && TargetsOf(g) <= Targets(gs)
    decreases gs, 0
  {
    if gs != [] {
      FlattenGateLeaves(gs[0]);
      FlattenLeaves(gs[1..]);
    }
  }

  lemma {:induction false} FlattenGateLeaves(g: Gate)
    requires WellFormedGate(g)
    ensures forall h :: h in FlattenGate(g) ==> IsLeaf(h) && TargetsOf(h) <= TargetsOf(g)
    decreases g, 1
  {
    match g
    case X(t) =>
    case CX(c, t) =>
    case Swap(a, b) =>
    case Controlled(controls, body) =>
      FlattenLeaves(body);
      UnderControlsLeaves(controls, Flatten(body), Targets(body));
    case Block(body) => FlattenLeaves(body);
  }

  lemma {:induction false} UnderControlsLeaves(controls: seq<Qubit>, gs: seq<Gate>, targets: set<Qubit>)
    requires forall g :: g in gs ==> IsLeaf(g) && TargetsOf(g) <= targets
    requires forall q :: q in controls ==> q !in targets
    ensures forall h :: h in UnderControls(controls, gs) ==> IsLeaf(h) && TargetsOf(h) <= targets
  {
    if gs != [] {
      UnderControlsLeaves(controls, gs[1..], targets);
      assert gs[0] in gs;
      assert Targets([gs[0]]) == TargetsOf(gs[0]) + Targets([gs[0]][1..]);
    }
  }

  /** Every leaf is its own inverse. */
  lemma {:induction false} LeafTwice(g: Gate, s: State)
    requires IsLeaf(g)
    ensures Apply(g, Apply(g, s)) == s
    decreases g
  {
    match g
    case X(t) =>
    case CX(c, t) =>
    case Swap(a, b) =>
    case Controlled(controls, body) =>
      if body != [] {
        var t := Apply(body[0], s);
        assert body == [body[0]];
        RunOne(body[0], s);
        RunOne(body[0], t);
        LeafTwice(body[0], s);
        forall q | q in controls
          ensures q in t <==> q in s
        {
          ApplyKeeps(body[0], s, q);
        }
      }
  }

  /** A sequence of gates that undo themselves is undone by the reversed sequence. */
  lemma {:induction false} ReversedUndoes(gs: seq<Gate>, s: State)
    requires forall g, t :: g in gs ==> Apply(g, Apply(g, t)) == t
    ensures Run(Reverse(gs), Run(gs, s)) == s
    decreases gs
  {
    if gs != [] {
      var t := Apply(gs[0], s);
      assert gs[0] in gs;
      ReversedUndoes(gs[1..], t);
      RunConcat(Reverse(gs[1..]), [gs[0]], Run(gs, s));
      RunOne(gs[0], t);
    }
  }

  lemma ReverseTwice<T>(xs: seq<T>)
    ensures Reverse(Reverse(xs)) == xs
  {
    ReverseAt(xs);
    ReverseAt(Reverse(xs));
  }

  /** The inverse circuit undoes the circuit, and the circuit undoes its inverse. */
  lemma InverseUndoes(gs: seq<Gate>, s: State)
    requires WellFormed(gs)
    ensures Run(InverseGates(gs), Run(gs, s)) == s
    ensures Run(gs, Run(InverseGates(gs), s)) == s
  {
    var leaves := Flatten(gs);
    FlattenLeaves(gs);
    RunFlatten(gs, s);
    forall g, t | g in leaves
      ensures Apply(g, Apply(g, t)) == t
    {
      LeafTwice(g, t);
    }
    ReversedUndoes(leaves, s);
    ReverseAt(leaves);
    assert forall g :: g in Reverse(leaves) ==> g in leaves;
    ReverseTwice(leaves);
    ReversedUndoes(Reverse(leaves), s);
    RunFlatten(gs, Run(Reverse(leaves), s));
  }

  /** The leaves are collected, reversed and added; each of these gates is its own inverse. */
  method ExpandInverse(circ: seq<Gate>) returns (inverse: seq<Gate>)
    requires WellFormed(circ)
    ensures forall s :: Run(inverse, Run(circ, s)) == s && Run(circ, Run(inverse, s)) == s
  {
    var reversed := Reverse(Flatten(circ));
    inverse := [];
    for k := 0 to |reversed|
      invariant inverse == reversed[..k]
    {
      inverse := inverse + [reversed[k]];
    }
    assert inverse == InverseGates(circ);
    forall s
      ensures Run(inverse, Run(circ, s)) == s && Run(circ, Run(inverse, s)) == s
    {
      InverseUndoes(circ, s);
    }
  }

  // ---------------------------------------------------------------- which qubits circuits touch

  function QubitSet(reg: seq<Qubit>): set<Qubit> {
    set q | q in reg
  }

  /** Well formed, and flipping qubits of the given set only. */
  predicate Tame(gs: seq<Gate>, qubits: set<Qubit>) {
    WellFormed(gs) && Targets(gs) <= qubits
  }

  lemma TameConcat(a: seq<Gate>, b: seq<Gate>, qubits: set<Qubit>)
    requires Tame(a, qubits) && Tame(b, qubits)
    ensures Tame(a + b, qubits)
  {
    WellFormedConcat(a, b);
    TargetsConcat(a, b);
  }

  lemma TameOne(g: Gate, qubits: set<Qubit>)
    requires WellFormedGate(g) && TargetsOf(g) <= qubits
    ensures Tame([g], qubits)
  {
    assert Targets([g]) == TargetsOf(g) + Targets([g][1..]);
  }

  lemma {:induction false} TameNest(open: nat -> seq<Gate>, core: seq<Gate>, close: nat -> seq<Gate>,
                                    i: nat, n: nat, qubits: set<Qubit>)
    requires i <= n && Tame(core, qubits)
    requires forall k: nat :: i <= k < n ==> Tame(open(k), qubits) && Tame(close(k), qubits)
    ensures Tame(Nest(open, core, close, i, n), qubits)
    decreases n - i
  {
    if i < n {
      var inner := Nest(open, core, close, i + 1, n);
      TameNest(open, core, close, i + 1, n, qubits);
      TameConcat(open(i), inner, qubits);
      TameConcat(open(i) + inner, close(i), qubits);
    }
  }

  lemma {:induction false} TameXLayer(reg: seq<Qubit>, qubits: set<Qubit>)
    requires QubitSet(reg) <= qubits
    ensures Tame(XLayer(reg), qubits)
  {
    if reg != [] {
      assert reg[0] in QubitSet(reg);
      assert QubitSet(reg[1..]) <= QubitSet(reg);
      TameXLayer(reg[1..], qubits);
      TameOne(X(reg[0]), qubits);
      TameConcat([X(reg[0])], XLayer(reg[1..]), qubits);
    }
  }
}
