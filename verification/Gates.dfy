/**
 * Reversible gates, nested composites and what they do to basis states. Every gate here permutes the
 * computational basis states, so a circuit is a function from states to states and no amplitudes are
 * needed. The lemmas cover running circuits one after the other, layers of X gates, which complement
 * a register, and sweeps that open round by round and close in the opposite order, the common shape
 * of the adders and ladders.
 */
module Gates {
  import opened Registers

  /**
   * The gates the arithmetic circuits emit, and Swap. Controlled is the C-U composite: its body acts
   * exactly when every listed control holds 1. Block is a composite added as one instruction.
   */
  datatype Gate =
    | X(target: Qubit)
    | CX(control: Qubit, target: Qubit)
    | Swap(first: Qubit, second: Qubit)
    | Controlled(controls: seq<Qubit>, body: seq<Gate>)
    | Block(body: seq<Gate>)

  predicate AllOn(s: State, controls: seq<Qubit>) {
    forall q :: q in controls ==> q in s
  }

  function Apply(g: Gate, s: State): State
    decreases g, 1
  {
    match g
    case X(t) => Flip(s, t)
    case CX(c, t) => if c in s then Flip(s, t) else s
    case Swap(a, b) => if a in s <==> b in s then s else Flip(Flip(s, a), b)
    case Controlled(controls, body) => if AllOn(s, controls) then Run(body, s) else s
    case Block(body) => Run(body, s)
  }

  /** Runs the instructions from left to right. */
  function Run(gs: seq<Gate>, s: State): State
    decreases gs, 0
  {
    if gs == [] then s else Run(gs[1..], Apply(gs[0], s))
  }

  /** A composite under construction. */
  class Composite {
    var instructions: seq<Gate>

    constructor ()
      ensures instructions == []
    {
      instructions := [];
    }

    method AddInstruction(g: Gate)
      modifies this
      ensures instructions == old(instructions) + [g]
    {
      instructions := instructions + [g];
    }

    method AddInstructions(gs: seq<Gate>)
      modifies this
      ensures instructions == old(instructions) + gs
    {
      instructions := instructions + gs;
    }
  }

  // ---------------------------------------------------------------- running sequences

  lemma {:induction false} RunConcat(a: seq<Gate>, b: seq<Gate>, s: State)
    ensures Run(a + b, s) == Run(b, Run(a, s))
    decreases a
  {
    if a == [] {
      assert a + b == b;
    } else {
      assert (a + b)[1..] == a[1..] + b;
      RunConcat(a[1..], b, Apply(a[0], s));
    }
  }

  lemma RunOne(g: Gate, s: State)
    ensures Run([g], s) == Apply(g, s)
  {
    assert Run([g][1..], Apply(g, s)) == Apply(g, s);
  }

  lemma RunThree(g: Gate, h: Gate, k: Gate, s: State)
    ensures Run([g, h, k], s) == Apply(k, Apply(h, Apply(g, s)))
  {
    assert [g, h, k] == [g] + ([h] + [k]);
    RunConcat([g], [h] + [k], s);
    RunConcat([h], [k], Apply(g, s));
    RunOne(g, s);
    RunOne(h, Apply(g, s));
    RunOne(k, Apply(h, Apply(g, s)));
  }

  lemma RunAround(a: seq<Gate>, b: seq<Gate>, c: seq<Gate>, s: State)
    ensures Run(a + b + c, s) == Run(c, Run(b, Run(a, s)))
  {
    RunConcat(a + b, c, s);
    RunConcat(a, b, s);
  }

  // ---------------------------------------------------------------- nested rounds

  /** Rounds i..n opened one inside the other around a core, then closed in the opposite order. */
  function Nest(open: nat -> seq<Gate>, core: seq<Gate>, close: nat -> seq<Gate>, i: nat, n: nat): seq<Gate>
    requires i <= n
    decreases n - i
  {
    if i == n then core else open(i) + Nest(open, core, close, i + 1, n) + close(i)
  }

  /** What opens the first i rounds, in order. */
  function Openers(open: nat -> seq<Gate>, i: nat): seq<Gate> {
    if i == 0 then [] else Openers(open, i - 1) + open(i - 1)
  }

  /** What closes the first i rounds, innermost first. */
  function Closers(close: nat -> seq<Gate>, i: nat): seq<Gate> {
    if i == 0 then [] else close(i - 1) + Closers(close, i - 1)
  }

  /** A nest is a forward sweep, the core and a backward sweep. */
  lemma {:induction false} NestIsTwoSweeps(open: nat -> seq<Gate>, core: seq<Gate>, close: nat -> seq<Gate>, i: nat, n: nat)
    requires i <= n
    ensures Openers(open, i) + Nest(open, core, close, i, n) + Closers(close, i)
         == Openers(open, n) + core + Closers(close, n)
    decreases n - i
  {
    if i < n {
      NestIsTwoSweeps(open, core, close, i + 1, n);
    }
  }

  lemma NestFromZero(open: nat -> seq<Gate>, core: seq<Gate>, close: nat -> seq<Gate>, n: nat)
    ensures Nest(open, core, close, 0, n) == Openers(open, n) + core + Closers(close, n)
  {
    NestIsTwoSweeps(open, core, close, 0, n);
  }

  lemma AssociateThree<T>(a: seq<T>, b: seq<T>, c: seq<T>)
    ensures (a + b) + c == a + (b + c)
  {}

  lemma Associate<T>(a: seq<T>, b: seq<T>, c: seq<T>, d: seq<T>)
    ensures a + b + c + d == a + (b + c + d)
  {}

  lemma EmitOpener(before: seq<Gate>, open: nat -> seq<Gate>, gates: seq<Gate>, i: nat)
    requires gates == open(i)
    ensures (before + Openers(open, i)) + gates == before + Openers(open, i + 1)
  {}

  lemma NothingToClose(close: nat -> seq<Gate>, i: nat)
    requires close(i) == []
    ensures Closers(close, i + 1) == Closers(close, i)
  {}

  lemma EmitCloser(emitted: seq<Gate>, gates: seq<Gate>, close: nat -> seq<Gate>, i: nat)
    requires gates == close(i)
    ensures (emitted + gates) + Closers(close, i) == emitted + Closers(close, i + 1)
  {}

  // ---------------------------------------------------------------- layers of X gates

  /** One X per qubit of a register. */
  function XLayer(reg: seq<Qubit>): seq<Gate> {
    if reg == [] then [] else [X(reg[0])] + XLayer(reg[1..])
  }

  method AddXLayer(circuit: Composite, reg: seq<Qubit>)
    modifies circuit
    ensures circuit.instructions == old(circuit.instructions) + XLayer(reg)
  {
    var i := 0;
    assert reg[0..] == reg;
    while i < |reg|
      invariant 0 <= i <= |reg|
      invariant circuit.instructions + XLayer(reg[i..]) == old(circuit.instructions) + XLayer(reg)
    {
      assert reg[i..][1..] == reg[i + 1..];
      assert circuit.instructions + ([X(reg[i])] + XLayer(reg[i + 1..]))
          == (circuit.instructions + [X(reg[i])]) + XLayer(reg[i + 1..]);
      circuit.AddInstruction(X(reg[i]));
      i := i + 1;
    }
  }

  lemma {:induction false} RunXLayer(reg: seq<Qubit>, s: State)
    requires Distinct(reg)
    ensures Run(XLayer(reg), s) == Complement(s, reg)
    decreases reg
  {
    if reg != [] {
      assert XLayer(reg)[1..] == XLayer(reg[1..]);
      RunXLayer(reg[1..], Flip(s, reg[0]));
      assert reg[0] !in reg[1..];
      assert forall q :: q in reg <==> q == reg[0] || q in reg[1..];
    }
  }
}
