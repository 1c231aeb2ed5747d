/**
 * Rotating a register under a control, one conditional swap at a time. A rotation by i places is a
 * multiplication by 2^i as long as no digit is carried round.
 */
module Rotation {
  import opened Registers
  import opened Gates
  import opened Controls
  import opened ControlledSwap
  import opened Inverse

  /** The n-bit number v rotated up by one place: doubled, with the top digit carried round. */
  function RotatedOnce(v: int, n: nat): int
    requires n >= 1
  {
    if v >= Pow2(n - 1) then 2 * (v - Pow2(n - 1)) + 1 else 2 * v
  }

  function RotatedBy(v: int, n: nat, i: nat): int
    requires n >= 1
  {
    if i == 0 then v else RotatedOnce(RotatedBy(v, n, i - 1), n)
  }

  lemma {:induction false} RotatedBound(v: int, n: nat, i: nat)
    requires n >= 1 && 0 <= v < Pow2(n)
    ensures 0 <= RotatedBy(v, n, i) < Pow2(n)
  {
    if i > 0 { RotatedBound(v, n, i - 1); }
  }

  /** A rotation that carries no digit round is a multiplication. */
  lemma {:induction false} RotatedIsProduct(v: nat, n: nat, i: nat)
    requires n >= 1 && Pow2(i) * v < Pow2(n)
    ensures RotatedBy(v, n, i) == Pow2(i) * v
  {
    if i > 0 {
      Double(Pow2(i - 1), v);
      assert Pow2(i - 1) * v >= 0;
      RotatedIsProduct(v, n, i - 1);
    }
  }

  /** Exchanges neighbours j and j + 1 when the control is on. */
  function SwapStep(reg: seq<Qubit>, ctrl: Qubit, j: nat): Gate
    requires j + 1 < |reg|
  {
    Block(ControlledSwapGates([reg[j]], [reg[j + 1]], [ctrl], []))
  }

  /** The downward sweep of swaps, from the top of the register to place j. */
  function RotateUp(reg: seq<Qubit>, ctrl: Qubit, j: nat): seq<Gate>
    decreases |reg| - j
  {
    if j + 1 >= |reg| then [] else RotateUp(reg, ctrl, j + 1) + [SwapStep(reg, ctrl, j)]
  }

  /** The upward sweep of swaps, from the bottom of the register to place j. */
  function RotateDown(reg: seq<Qubit>, ctrl: Qubit, j: nat): seq<Gate>
    requires j == 0 || j < |reg|
  {
    if j == 0 then [] else RotateDown(reg, ctrl, j - 1) + [SwapStep(reg, ctrl, j - 1)]
  }

  function Repeat(gs: seq<Gate>, i: nat): seq<Gate> {
    if i == 0 then [] else Repeat(gs, i - 1) + gs
  }

  lemma SwapStepActs(reg: seq<Qubit>, ctrl: Qubit, j: nat, s: State)
    requires j + 1 < |reg| && reg[j] != reg[j + 1]
    ensures var t := Apply(SwapStep(reg, ctrl, j), s);
            if ctrl in s
            then (forall q :: q != reg[j] && q != reg[j + 1] ==> (q in t <==> q in s))
                 && (reg[j] in t <==> reg[j + 1] in s) && (reg[j + 1] in t <==> reg[j] in s)
            else t == s
  {
    var a, b := [reg[j]], [reg[j + 1]];
    ControlledSwapActs(a, b, [ctrl], [], s);
    assert Enabled(s, [ctrl], []) <==> ctrl in s;
    if ctrl in s {
      var t := Apply(SwapStep(reg, ctrl, j), s);
      assert Exchanged(s, t, a, b);
      assert a[0] in t <==> b[0] in s;
      assert b[0] in t <==> a[0] in s;
      assert forall q :: q in a + b <==> q == reg[j] || q == reg[j + 1];
    }
  }

  /** After the sweep down to place j, the top qubit's content stands at j and the rest moved up. */
  lemma {:induction false} RotateUpMoves(reg: seq<Qubit>, ctrl: Qubit, j: nat, s: State)
    requires j < |reg| && Distinct(reg) && ctrl !in reg && ctrl in s
    ensures var t := Run(RotateUp(reg, ctrl, j), s);
            && (forall q :: q !in reg ==> (q in t <==> q in s))
            && (forall k :: 0 <= k < j ==> (reg[k] in t <==> reg[k] in s))
            && (reg[j] in t <==> reg[|reg| - 1] in s)
            && (forall k :: j < k < |reg| ==> (reg[k] in t <==> reg[k - 1] in s))
    decreases |reg| - j
  {
    if j + 1 < |reg| {
      var u := Run(RotateUp(reg, ctrl, j + 1), s);
      RotateUpMoves(reg, ctrl, j + 1, s);
      RunConcat(RotateUp(reg, ctrl, j + 1), [SwapStep(reg, ctrl, j)], s);
      RunOne(SwapStep(reg, ctrl, j), u);
      SwapStepActs(reg, ctrl, j, u);
      MovedOneMore(reg, j, s, u, Apply(SwapStep(reg, ctrl, j), u));
    }
  }

  lemma MovedOneMore(reg: seq<Qubit>, j: nat, s: State, u: State, t: State)
    requires j + 1 < |reg| && Distinct(reg)
    requires forall q :: q !in reg ==> (q in u <==> q in s)
    requires forall k :: 0 <= k < j + 1 ==> (reg[k] in u <==> reg[k] in s)
    requires reg[j + 1] in u <==> reg[|reg| - 1] in s
    requires forall k :: j + 1 < k < |reg| ==> (reg[k] in u <==> reg[k - 1] in s)
    requires forall q :: q != reg[j] && q != reg[j + 1] ==> (q in t <==> q in u)
    requires (reg[j] in t <==> reg[j + 1] in u) && (reg[j + 1] in t <==> reg[j] in u)
    ensures forall q :: q !in reg ==> (q in t <==> q in s)
    ensures forall k :: 0 <= k < j ==> (reg[k] in t <==> reg[k] in s)
    ensures reg[j] in t <==> reg[|reg| - 1] in s
    ensures forall k :: j < k < |reg| ==> (reg[k] in t <==> reg[k - 1] in s)
  {
    forall k | 0 <= k < |reg| && k != j && k != j + 1
      ensures reg[k] in t <==> reg[k] in u
    {
      assert reg[k] != reg[j] && reg[k] != reg[j + 1];
    }
    assert reg[j] in reg && reg[j + 1] in reg;
  }

  lemma {:induction false} RotateUpIdle(reg: seq<Qubit>, ctrl: Qubit, j: nat, s: State)
    requires Distinct(reg) && ctrl !in s
    ensures Run(RotateUp(reg, ctrl, j), s) == s
    decreases |reg| - j
  {
    if j + 1 < |reg| {
      RotateUpIdle(reg, ctrl, j + 1, s);
      RunConcat(RotateUp(reg, ctrl, j + 1), [SwapStep(reg, ctrl, j)], s);
      RunOne(SwapStep(reg, ctrl, j), s);
      SwapStepActs(reg, ctrl, j, s);
    }
  }

  /** A register read with its top qubit first is its value rotated. */
  lemma RotatedVal(s: State, reg: seq<Qubit>)
    requires |reg| >= 1
    ensures Val(s, [reg[|reg| - 1]] + reg[..|reg| - 1]) == RotatedOnce(Val(s, reg), |reg|)
  {
    var low, top := reg[..|reg| - 1], reg[|reg| - 1];
    assert reg == low + [top];
    assert ([top] + low)[1..] == low;
    ValSnoc(s, low, top);
    ValBound(s, low);
  }

  function RotatedValue(s: State, reg: seq<Qubit>, i: nat): int
    requires |reg| >= 1
  {
    RotatedBy(Val(s, reg), |reg|, i)
  }

  /** One full sweep rotates the register's value, when the control is on. */
  lemma RotateUpRotates(reg: seq<Qubit>, ctrl: Qubit, s: State, v: int)
    requires |reg| >= 1 && Distinct(reg) && ctrl !in reg
    requires v == RotatedOnce(Val(s, reg), |reg|)
    ensures Run(RotateUp(reg, ctrl, 0), s) == if ctrl in s then Write(s, reg, v) else s
  {
    if ctrl in s {
      var t := Run(RotateUp(reg, ctrl, 0), s);
      var moved := [reg[|reg| - 1]] + reg[..|reg| - 1];
      RotateUpMoves(reg, ctrl, 0, s);
      forall k | 0 <= k < |reg|
        ensures reg[k] in t <==> moved[k] in s
      {}
      CopiedVal(s, t, reg, moved);
      RotatedVal(s, reg);
      HoldsOwn(t, reg);
      WriteUnique(s, t, reg, v);
    } else {
      RotateUpIdle(reg, ctrl, 0, s);
    }
  }

  /** i sweeps rotate i times. */
  lemma {:induction false} RepeatRotates(reg: seq<Qubit>, ctrl: Qubit, i: nat, s: State)
    requires |reg| >= 1 && Distinct(reg) && ctrl !in reg
    ensures Run(Repeat(RotateUp(reg, ctrl, 0), i), s)
         == if ctrl in s then Write(s, reg, RotatedValue(s, reg, i)) else s
  {
    var sweep := RotateUp(reg, ctrl, 0);
    if i == 0 {
      WriteBack(s, reg);
    } else {
      var t := Run(Repeat(sweep, i - 1), s);
      var v, w := RotatedValue(s, reg, i - 1), RotatedValue(s, reg, i);
      RepeatRotates(reg, ctrl, i - 1, s);
      RunConcat(Repeat(sweep, i - 1), sweep, s);
      if ctrl in s {
        ValBound(s, reg);
        RotatedBound(Val(s, reg), |reg|, i - 1);
        ReadBack(s, reg, v);
        RotateUpRotates(reg, ctrl, t, w);
        WriteWrite(s, reg, v, w);
      } else {
        RotateUpRotates(reg, ctrl, t, RotatedOnce(Val(t, reg), |reg|));
      }
    }
  }

  /** The register rotated by renaming its qubits, as the comparison of the division reads it. */
  function Renamed(reg: seq<Qubit>, i: nat): seq<Qubit>
    requires i <= |reg|
  {
    reg[|reg| - i..] + reg[..|reg| - i]
  }

  lemma {:induction false} RenamedVal(s: State, reg: seq<Qubit>, i: nat)
    requires 1 <= |reg| && i <= |reg|
    ensures Val(s, Renamed(reg, i)) == RotatedValue(s, reg, i)
  {
    if i == 0 {
      assert Renamed(reg, 0) == reg;
    } else {
      var prev := Renamed(reg, i - 1);
      RenamedVal(s, reg, i - 1);
      RotatedVal(s, prev);
      RenamedOnce(reg, i);
    }
  }

  lemma RenamedOnce(reg: seq<Qubit>, i: nat)
    requires 1 <= i <= |reg|
    ensures var prev := Renamed(reg, i - 1); Renamed(reg, i) == [prev[|reg| - 1]] + prev[..|reg| - 1]
  {
    var at := |reg| - i;
    var tail, head := reg[at + 1..], reg[..at + 1];
    assert reg[at..] == [reg[at]] + tail && head[..at] == reg[..at] && head[at] == reg[at];
    assert (tail + head)[..|reg| - 1] == tail + head[..at];
  }

  // ---------------------------------------------------------------- undoing a rotation

  lemma {:induction false} RotateUpAt(reg: seq<Qubit>, ctrl: Qubit, j: nat)
    requires j < |reg|
    ensures |RotateUp(reg, ctrl, j)| == |reg| - 1 - j
    ensures forall k :: 0 <= k < |reg| - 1 - j ==> RotateUp(reg, ctrl, j)[k] == SwapStep(reg, ctrl, |reg| - 2 - k)
    decreases |reg| - j
  {
    if j + 1 < |reg| { RotateUpAt(reg, ctrl, j + 1); }
  }

  lemma {:induction false} RotateDownAt(reg: seq<Qubit>, ctrl: Qubit, j: nat)
    requires j < |reg|
    ensures |RotateDown(reg, ctrl, j)| == j
    ensures forall k :: 0 <= k < j ==> RotateDown(reg, ctrl, j)[k] == SwapStep(reg, ctrl, k)
  {
    if j > 0 { RotateDownAt(reg, ctrl, j - 1); }
  }

  lemma DownReversesUp(reg: seq<Qubit>, ctrl: Qubit)
    requires |reg| >= 1
    ensures RotateDown(reg, ctrl, |reg| - 1) == Reverse(RotateUp(reg, ctrl, 0))
  {
    RotateUpAt(reg, ctrl, 0);
    RotateDownAt(reg, ctrl, |reg| - 1);
    ReverseAt(RotateUp(reg, ctrl, 0));
  }

  lemma SwapStepTwice(reg: seq<Qubit>, ctrl: Qubit, j: nat, s: State)
    requires j + 1 < |reg| && Distinct(reg) && ctrl !in reg
    ensures Apply(SwapStep(reg, ctrl, j), Apply(SwapStep(reg, ctrl, j), s)) == s
  {
    SwapStepActs(reg, ctrl, j, s);
    SwapStepActs(reg, ctrl, j, Apply(SwapStep(reg, ctrl, j), s));
    assert reg[j] in reg && reg[j + 1] in reg;
  }

  /** The upward sweep undoes the downward one. */
  lemma SweepUndoes(reg: seq<Qubit>, ctrl: Qubit, s: State)
    requires |reg| >= 1 && Distinct(reg) && ctrl !in reg
    ensures Run(RotateDown(reg, ctrl, |reg| - 1), Run(RotateUp(reg, ctrl, 0), s)) == s
  {
    DownReversesUp(reg, ctrl);
    StepsUndoThemselves(reg, ctrl, RotateUp(reg, ctrl, 0));
    ReversedUndoes(RotateUp(reg, ctrl, 0), s);
  }

  lemma StepsUndoThemselves(reg: seq<Qubit>, ctrl: Qubit, up: seq<Gate>)
    requires |reg| >= 1 && Distinct(reg) && ctrl !in reg && up == RotateUp(reg, ctrl, 0)
    ensures forall g, t :: g in up ==> Apply(g, Apply(g, t)) == t
  {
    RotateUpAt(reg, ctrl, 0);
    forall g, t | g in up
      ensures Apply(g, Apply(g, t)) == t
    {
      var k :| 0 <= k < |up| && up[k] == g;
      SwapStepTwice(reg, ctrl, |reg| - 2 - k, t);
    }
  }

  /** i upward sweeps undo i downward ones. */
  lemma {:induction false} RepeatUndoes(reg: seq<Qubit>, ctrl: Qubit, i: nat, s: State)
    requires |reg| >= 1 && Distinct(reg) && ctrl !in reg
    ensures Run(Repeat(RotateDown(reg, ctrl, |reg| - 1), i), Run(Repeat(RotateUp(reg, ctrl, 0), i), s)) == s
  {
    var up, down := RotateUp(reg, ctrl, 0), RotateDown(reg, ctrl, |reg| - 1);
    if i > 0 {
      var t := Run(Repeat(up, i - 1), s);
      RunConcat(Repeat(up, i - 1), up, s);
      SweepUndoes(reg, ctrl, t);
      RepeatFront(down, i - 1);
      RunConcat(down, Repeat(down, i - 1), Run(up, t));
      RepeatUndoes(reg, ctrl, i - 1, s);
    }
  }

  lemma {:induction false} RepeatFront(gs: seq<Gate>, i: nat)
    ensures Repeat(gs, i + 1) == gs + Repeat(gs, i)
  {
    if i > 0 {
      RepeatFront(gs, i - 1);
      AssociateThree(gs, Repeat(gs, i - 1), gs);
    }
  }

  // ---------------------------------------------------------------- the loops of the division circuit

  method EmitRotateUp(circuit: Composite, reg: seq<Qubit>, ctrl: Qubit, times: nat)
    modifies circuit
    ensures circuit.instructions == old(circuit.instructions) + Repeat(RotateUp(reg, ctrl, 0), times)
  {
    ghost var before := circuit.instructions;
    for k := 0 to times
      invariant circuit.instructions == before + Repeat(RotateUp(reg, ctrl, 0), k)
    {
      ghost var start := circuit.instructions;
      var j := |reg| - 2;
      while j >= 0
        invariant -2 <= j < |reg|
        invariant |reg| > 0 ==> -1 <= j <= |reg| - 2
        invariant circuit.instructions == start + RotateUp(reg, ctrl, if j < 0 then 0 else j + 1)
      {
        var swap := new Composite();
        ExpandControlledSwap(swap, [reg[j]], [reg[j + 1]], [ctrl], []);
        assert swap.instructions == ControlledSwapGates([reg[j]], [reg[j + 1]], [ctrl], []);
        circuit.AddInstruction(Block(swap.instructions));
        AssociateThree(start, RotateUp(reg, ctrl, j + 1), [SwapStep(reg, ctrl, j)]);
        j := j - 1;
      }
      AssociateThree(before, Repeat(RotateUp(reg, ctrl, 0), k), RotateUp(reg, ctrl, 0));
    }
  }

  method EmitRotateDown(circuit: Composite, reg: seq<Qubit>, ctrl: Qubit, times: nat)
    requires |reg| >= 1
    modifies circuit
    ensures circuit.instructions == old(circuit.instructions) + Repeat(RotateDown(reg, ctrl, |reg| - 1), times)
  {
    ghost var before, sweep := circuit.instructions, RotateDown(reg, ctrl, |reg| - 1);
    for k := 0 to times
      invariant circuit.instructions == before + Repeat(sweep, k)
    {
      EmitSweepDown(circuit, reg, ctrl);
      AssociateThree(before, Repeat(sweep, k), sweep);
    }
  }

  method EmitSweepDown(circuit: Composite, reg: seq<Qubit>, ctrl: Qubit)
    requires |reg| >= 1
    modifies circuit
    ensures circuit.instructions == old(circuit.instructions) + RotateDown(reg, ctrl, |reg| - 1)
  {
    ghost var start := circuit.instructions;
    for j := 1 to |reg|
      invariant circuit.instructions == start + RotateDown(reg, ctrl, j - 1)
    {
      var swap := new Composite();
      ExpandControlledSwap(swap, [reg[j - 1]], [reg[j]], [ctrl], []);
      assert swap.instructions == ControlledSwapGates([reg[j - 1]], [reg[j]], [ctrl], []);
      circuit.AddInstruction(Block(swap.instructions));
      AssociateThree(start, RotateDown(reg, ctrl, j - 1), [SwapStep(reg, ctrl, j - 1)]);
    }
  }

  /** The state after i conditional rotations of a register. */
  ghost function Rotated(s: State, reg: seq<Qubit>, ctrl: Qubit, i: nat): State
    requires |reg| >= 1 && Distinct(reg)
  {
    if ctrl in s then Write(s, reg, RotatedValue(s, reg, i)) else s
  }

  method AddRotation(circuit: Composite, reg: seq<Qubit>, ctrl: Qubit, times: nat)
    requires |reg| >= 1 && Distinct(reg) && ctrl !in reg
    modifies circuit
    ensures forall s :: Run(circuit.instructions, s) == Rotated(Run(old(circuit.instructions), s), reg, ctrl, times)
  {
    ghost var before := circuit.instructions;
    EmitRotateUp(circuit, reg, ctrl, times);
    forall s
      ensures Run(circuit.instructions, s) == Rotated(Run(before, s), reg, ctrl, times)
    {
      RunConcat(before, Repeat(RotateUp(reg, ctrl, 0), times), s);
      RepeatRotates(reg, ctrl, times, Run(before, s));
    }
  }

  /** Undoes conditional rotations: from a rotated state the circuit leads back to the state before. */
  method AddRotationBack(circuit: Composite, reg: seq<Qubit>, ctrl: Qubit, times: nat)
    requires |reg| >= 1 && Distinct(reg) && ctrl !in reg
    modifies circuit
    ensures forall s, t :: Run(old(circuit.instructions), s) == Rotated(t, reg, ctrl, times) ==> Run(circuit.instructions, s) == t
  {
    ghost var before := circuit.instructions;
    EmitRotateDown(circuit, reg, ctrl, times);
    forall s, t | Run(before, s) == Rotated(t, reg, ctrl, times)
      ensures Run(circuit.instructions, s) == t
    {
      RunConcat(before, Repeat(RotateDown(reg, ctrl, |reg| - 1), times), s);
      RepeatRotates(reg, ctrl, times, t);
      RepeatUndoes(reg, ctrl, times, t);
    }
  }
}
