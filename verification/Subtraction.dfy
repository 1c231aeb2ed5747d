/**
 * In-place subtraction, by propagating borrows or by adding to the complement of the larger
 * register.
 */
module Subtraction {
  import opened Registers
  import opened Gates
  import opened RippleAdder

  datatype Option<T> = None | Some(value: T)

  /** What the subtraction leaves in the larger register, before reduction to its width. */
  function Difference(s: State, larger: seq<Qubit>, smaller: seq<Qubit>, c: nat): int {
    Val(s, larger) - Val(s, smaller) - c
  }

  // ---------------------------------------------------------------- adding and taking one

  /** Flips the next qubit when all the lower ones are 0. */
  function CarryUp(low: seq<Qubit>, next: Qubit): seq<Gate> {
    XLayer(low) + [Controlled(low, [X(next)])] + XLayer(low)
  }

  /** Increments the first k qubits of a register. */
  function AddOne(reg: seq<Qubit>, k: nat): seq<Gate>
    requires 1 <= k <= |reg|
  {
    if k == 1 then [X(reg[0])] else AddOne(reg, k - 1) + CarryUp(reg[..k - 1], reg[k - 1])
  }

  /** Decrements the first k qubits of a register. */
  function TakeOne(reg: seq<Qubit>, k: nat): seq<Gate>
    requires 1 <= k <= |reg|
  {
    if k == 1 then [X(reg[0])] else TakeOne(reg, k - 1) + [Controlled(reg[..k - 1], [X(reg[k - 1])])]
  }

  lemma CarryUpActs(low: seq<Qubit>, next: Qubit, s: State)
    requires Distinct(low) && next !in low
    ensures Run(CarryUp(low, next), s) == if Val(s, low) == 0 then Flip(s, next) else s
  {
    var s1 := Complement(s, low);
    var s2 := Apply(Controlled(low, [X(next)]), s1);
    RunAround(XLayer(low), [Controlled(low, [X(next)])], XLayer(low), s);
    RunXLayer(low, s);
    RunXLayer(low, s2);
    RunOne(Controlled(low, [X(next)]), s1);
    RunOne(X(next), s1);
    ComplementVal(s, s1, low);
    AllOnesVal(s1, low);
  }

  /** Extends a step of +1 or -1 by one qubit: that qubit flips exactly when the step wrapped. */
  lemma StepExtends(s: State, t: State, u: State, low: seq<Qubit>, top: Qubit, v: int, d: int, w: int)
    requires Distinct(low) && top !in low && (d == 1 || d == -1)
    requires v == Val(s, low) + d && t == Write(s, low, v)
    requires u == if v < 0 || v >= Pow2(|low|) then Flip(t, top) else t
    requires w == Val(s, low + [top]) + d
    ensures Distinct(low + [top]) && u == Write(s, low + [top], w)
  {
    ValSnoc(s, low, top);
    ValSnoc(u, low, top);
    ValBound(s, low);
    WriteNear(s, low, v, if v < 0 then v + Pow2(|low|) else if v >= Pow2(|low|) then v - Pow2(|low|) else v);
    ValAgree(u, t, low);
    forall q | q !in low + [top]
      ensures q in u <==> q in s
    {
      assert q !in low && q != top;
    }
    HoldsNear(u, low + [top], w);
    WriteUnique(s, u, low + [top], w);
  }

  function Stepped(s: State, reg: seq<Qubit>, d: int): int {
    Val(s, reg) + d
  }

  lemma OneQubitStep(q: Qubit, s: State, d: int)
    requires d == 1 || d == -1
    ensures Flip(s, q) == Write(s, [q], Stepped(s, [q], d))
  {
    var t := Flip(s, q);
    SingleVal(s, q);
    SingleVal(t, q);
    HoldsNear(t, [q], Stepped(s, [q], d));
    WriteUnique(s, t, [q], Stepped(s, [q], d));
  }

  /** The first k rounds of the increment add one to the first k qubits, modulo 2^k. */
  lemma {:induction false} AddOneAdds(reg: seq<Qubit>, k: nat, s: State)
    requires 1 <= k <= |reg| && Distinct(reg)
    ensures Distinct(reg[..k]) && Run(AddOne(reg, k), s) == Write(s, reg[..k], Stepped(s, reg[..k], 1))
  {
    if k == 1 {
      assert reg[..1] == [reg[0]];
      RunOne(X(reg[0]), s);
      OneQubitStep(reg[0], s, 1);
    } else {
      var low, top := reg[..k - 1], reg[k - 1];
      AddOneAdds(reg, k - 1, s);
      var t := Run(AddOne(reg, k - 1), s);
      RunConcat(AddOne(reg, k - 1), CarryUp(low, top), s);
      CarryUpActs(low, top, t);
      ValBound(s, low);
      AtWrap(s, t, low, Stepped(s, low, 1));
      assert reg[..k] == low + [top];
      StepExtends(s, t, Run(CarryUp(low, top), t), low, top, Stepped(s, low, 1), 1, Stepped(s, low + [top], 1));
    }
  }

  /** The first k rounds of the decrement take one from the first k qubits, modulo 2^k. */
  lemma {:induction false} TakeOneTakes(reg: seq<Qubit>, k: nat, s: State)
    requires 1 <= k <= |reg| && Distinct(reg)
    ensures Distinct(reg[..k]) && Run(TakeOne(reg, k), s) == Write(s, reg[..k], Stepped(s, reg[..k], -1))
  {
    if k == 1 {
      assert reg[..1] == [reg[0]];
      RunOne(X(reg[0]), s);
      OneQubitStep(reg[0], s, -1);
    } else {
      TakeOneTakes(reg, k - 1, s);
      RunConcat(TakeOne(reg, k - 1), [Controlled(reg[..k - 1], [X(reg[k - 1])])], s);
      assert reg[..k] == reg[..k - 1] + [reg[k - 1]];
      TakeOneMore(s, Run(TakeOne(reg, k - 1), s), reg[..k - 1], reg[k - 1]);
    }
  }

  lemma TopOutside(low: seq<Qubit>, top: Qubit)
    requires Distinct(low + [top])
    ensures top !in low
  {
    forall j | 0 <= j < |low|
      ensures low[j] != top
    {
      assert (low + [top])[j] == low[j] && (low + [top])[|low|] == top;
    }
  }

  /** The next qubit is inverted when all below it have come out as ones. */
  lemma TakeOneMore(s: State, t: State, low: seq<Qubit>, top: Qubit)
    requires Distinct(low + [top]) && Distinct(low) && |low| >= 1 && t == Write(s, low, Stepped(s, low, -1))
    ensures Run([Controlled(low, [X(top)])], t) == Write(s, low + [top], Stepped(s, low + [top], -1))
  {
    var flip := Controlled(low, [X(top)]);
    RunOne(flip, t);
    RunOne(X(top), t);
    AllOnesVal(t, low);
    ValBound(s, low);
    AtWrap(s, t, low, Stepped(s, low, -1));
    TopOutside(low, top);
    StepExtends(s, t, Apply(flip, t), low, top, Stepped(s, low, -1), -1, Stepped(s, low + [top], -1));
  }

  /** A step of one wrapped exactly when it left 0 (upwards) or the largest value (downwards). */
  lemma AtWrap(s: State, t: State, reg: seq<Qubit>, v: int)
    requires Distinct(reg) && t == Write(s, reg, v)
    requires v == Val(s, reg) + 1 || v == Val(s, reg) - 1
    ensures v == Val(s, reg) + 1 ==> (v >= Pow2(|reg|) <==> Val(t, reg) == 0)
    ensures v == Val(s, reg) - 1 ==> (v < 0 <==> Val(t, reg) == Pow2(|reg|) - 1)
  {
    ValBound(s, reg);
    WriteNear(s, reg, v, if v < 0 then v + Pow2(|reg|) else if v >= Pow2(|reg|) then v - Pow2(|reg|) else v);
  }

  // ---------------------------------------------------------------- borrowing, without an ancilla

  /** Round i: take bit i of smaller from larger, and on a borrow add one to the rest of smaller. */
  function OpenBorrow(larger: seq<Qubit>, smaller: seq<Qubit>): nat -> seq<Gate>
    requires |larger| == |smaller| && Distinct(smaller)
  {
    (i: nat) =>
      if i + 1 < |larger| then
        [CX(smaller[i], larger[i]),
         Controlled([smaller[i], larger[i]], AddOne(smaller[i + 1..], |smaller| - i - 1))]
      else if i < |larger| then [CX(smaller[i], larger[i])]
      else []
  }

  /** Gives the borrow of round i back. */
  function CloseBorrow(larger: seq<Qubit>, smaller: seq<Qubit>): nat -> seq<Gate>
    requires |larger| == |smaller|
  {
    (i: nat) =>
      if i + 1 < |larger| then
        [Controlled([smaller[i], larger[i]], TakeOne(smaller[i + 1..], |smaller| - i - 1))]
      else []
  }

  function BorrowFrom(larger: seq<Qubit>, smaller: seq<Qubit>, i: nat): seq<Gate>
    requires |larger| == |smaller| && Distinct(smaller) && i <= |larger|
  {
    Nest(OpenBorrow(larger, smaller), [], CloseBorrow(larger, smaller), i, |larger|)
  }

  /** A borrow happened when the subtrahend's bit and the new bit of the difference are both 1. */
  predicate Borrowed(s: State, larger: Qubit, smaller: Qubit) {
    smaller in s && larger in s
  }

  /** One round around the subtraction of the higher bits. */
  lemma BorrowRound(larger: seq<Qubit>, smaller: seq<Qubit>, s: State, s1: State, s2: State, s3: State, s4: State,
                    high: int, total: int)
    requires |larger| == |smaller| >= 1 && Distinct(larger) && Distinct(smaller) && Disjoint(larger, smaller)
    requires s1 == if smaller[0] in s then Flip(s, larger[0]) else s
    requires s2 == if Borrowed(s1, larger[0], smaller[0]) then Write(s1, smaller[1..], Stepped(s1, smaller[1..], 1)) else s1
    requires high == Difference(s2, larger[1..], smaller[1..], 0) && s3 == Write(s2, larger[1..], high)
    requires s4 == if Borrowed(s3, larger[0], smaller[0]) then Write(s3, smaller[1..], Stepped(s3, smaller[1..], -1)) else s3
    requires total == Difference(s, larger, smaller, 0)
    ensures s4 == Write(s, larger, total)
  {
    var l0, s0, lHigh, sHigh := larger[0], smaller[0], larger[1..], smaller[1..];
    SliceSeparate(larger, smaller, 1, 1);
    assert l0 in larger && s0 in smaller && l0 !in lHigh && s0 !in sHigh;
    assert l0 !in smaller && s0 !in larger && l0 !in sHigh && s0 !in lHigh;
    ValAgree(s1, s, sHigh);
    ValAgree(s1, s, lHigh);
    assert Borrowed(s3, l0, s0) <==> Borrowed(s1, l0, s0);
    assert Borrowed(s1, l0, s0) <==> s0 in s && l0 !in s;
    BorrowRestores(sHigh, lHigh, s1, s2, s3, s4, Borrowed(s1, l0, s0));
    assert Bit(s4, l0) == Bit(s1, l0);
    assert total == (Bit(s, l0) - Bit(s, s0)) + 2 * (Val(s, lHigh) - Val(s, sHigh));
    var exact := Val(s, lHigh) - Val(s, sHigh) - if Borrowed(s1, l0, s0) then 1 else 0;
    HoldsAgree(s3, s4, lHigh, high);
    DifferenceWraps(s1, s2, s4, lHigh, sHigh, high, exact, Borrowed(s1, l0, s0));
    assert AgreeOff(s4, s, larger) by {
      forall q | q !in larger
        ensures q in s4 <==> q in s
      {
        assert q != l0 && q !in lHigh;
      }
    }
    WriteBits(s, s4, larger, total, exact);
  }

  /** The add and the take of a borrow leave the rest of smaller as it was. */
  lemma BorrowRestores(sHigh: seq<Qubit>, lHigh: seq<Qubit>, s1: State, s2: State, s3: State, s4: State, borrow: bool)
    requires Distinct(lHigh) && Distinct(sHigh) && Disjoint(lHigh, sHigh)
    requires s2 == if borrow then Write(s1, sHigh, Stepped(s1, sHigh, 1)) else s1
    requires AgreeOff(s3, s2, lHigh)
    requires s4 == if borrow then Write(s3, sHigh, Stepped(s3, sHigh, -1)) else s3
    ensures forall q :: q in sHigh ==> (q in s4 <==> q in s1)
  {
    if borrow {
      var k := WriteQuotient(s1, sHigh, Stepped(s1, sHigh, 1));
      ValAgree(s3, s2, sHigh);
      HoldsOwn(s1, sHigh);
      HoldsShift(s1, sHigh, Val(s1, sHigh), Stepped(s3, sHigh, -1), k);
      HoldsSame(s4, s1, sHigh, Stepped(s3, sHigh, -1));
    }
  }

  /** Subtracting the incremented register is subtracting one more, modulo its width. */
  lemma DifferenceWraps(s1: State, s2: State, t: State, lHigh: seq<Qubit>, sHigh: seq<Qubit>,
                        high: int, exact: int, borrow: bool)
    requires |lHigh| == |sHigh| && Distinct(sHigh) && Disjoint(lHigh, sHigh)
    requires s2 == if borrow then Write(s1, sHigh, Stepped(s1, sHigh, 1)) else s1
    requires high == Difference(s2, lHigh, sHigh, 0) && Holds(t, lHigh, high)
    requires exact == Difference(s1, lHigh, sHigh, if borrow then 1 else 0)
    ensures Holds(t, lHigh, exact)
  {
    ValAgree(s1, s2, lHigh);
    if borrow {
      var k := WriteQuotient(s1, sHigh, Stepped(s1, sHigh, 1));
      HoldsShift(t, lHigh, high, exact, k);
    }
  }

  lemma OpenBorrowActs(larger: seq<Qubit>, smaller: seq<Qubit>, i: nat, s: State, s1: State)
    requires |larger| == |smaller| && i < |larger| && Distinct(smaller)
    requires larger[i] !in smaller[i + 1..]
    requires s1 == if smaller[i] in s then Flip(s, larger[i]) else s
    ensures Distinct(smaller[i + 1..])
    ensures Run(OpenBorrow(larger, smaller)(i), s)
         == if Borrowed(s1, larger[i], smaller[i]) && i + 1 < |larger|
            then Write(s1, smaller[i + 1..], Stepped(s1, smaller[i + 1..], 1)) else s1
  {
    var cx, rest := CX(smaller[i], larger[i]), smaller[i + 1..];
    RunOne(cx, s);
    if i + 1 < |larger| {
      var borrow := Controlled([smaller[i], larger[i]], AddOne(rest, |rest|));
      assert OpenBorrow(larger, smaller)(i) == [cx] + [borrow];
      RunConcat([cx], [borrow], s);
      RunOne(borrow, s1);
      assert AllOn(s1, [smaller[i], larger[i]]) <==> Borrowed(s1, larger[i], smaller[i]);
      AddOneAdds(rest, |rest|, s1);
      assert rest[..|rest|] == rest;
    }
  }

  lemma CloseBorrowActs(larger: seq<Qubit>, smaller: seq<Qubit>, i: nat, s: State)
    requires |larger| == |smaller| && i < |larger| && Distinct(smaller)
    ensures Distinct(smaller[i + 1..])
    ensures Run(CloseBorrow(larger, smaller)(i), s)
         == if Borrowed(s, larger[i], smaller[i]) && i + 1 < |larger|
            then Write(s, smaller[i + 1..], Stepped(s, smaller[i + 1..], -1)) else s
  {
    var rest := smaller[i + 1..];
    if i + 1 < |larger| {
      var giveBack := Controlled([smaller[i], larger[i]], TakeOne(rest, |rest|));
      RunOne(giveBack, s);
      assert AllOn(s, [smaller[i], larger[i]]) <==> Borrowed(s, larger[i], smaller[i]);
      TakeOneTakes(rest, |rest|, s);
      assert rest[..|rest|] == rest;
    }
  }

  /** Writing to no qubits changes nothing. */
  lemma WriteNothing(s: State, reg: seq<Qubit>, v: int)
    requires reg == []
    ensures Write(s, reg, v) == s
  {
    WriteUnique(s, s, reg, v);
  }

  /** The rounds from bit i on subtract the high parts of the registers. */
  lemma {:induction false} BorrowFromSubtracts(larger: seq<Qubit>, smaller: seq<Qubit>, i: nat, s: State)
    requires |larger| == |smaller| && i <= |larger|
    requires Distinct(larger) && Distinct(smaller) && Disjoint(larger, smaller)
    ensures Distinct(larger[i..])
    ensures Run(BorrowFrom(larger, smaller, i), s)
         == Write(s, larger[i..], Difference(s, larger[i..], smaller[i..], 0))
    decreases |larger| - i
  {
    var l, r := larger[i..], smaller[i..];
    SliceSeparate(larger, smaller, i, i);
    if i == |larger| {
      WriteNothing(s, l, Difference(s, l, r, 0));
    } else {
      assert l[1..] == larger[i + 1..] && r[1..] == smaller[i + 1..];
      assert l[0] in larger && larger[i] !in smaller[i + 1..];
      var open, close := OpenBorrow(larger, smaller)(i), CloseBorrow(larger, smaller)(i);
      var s1 := if r[0] in s then Flip(s, l[0]) else s;
      var s2 := Run(open, s);
      var s3 := Run(BorrowFrom(larger, smaller, i + 1), s2);
      var s4 := Run(close, s3);
      RunAround(open, BorrowFrom(larger, smaller, i + 1), close, s);
      OpenBorrowActs(larger, smaller, i, s, s1);
      BorrowFromSubtracts(larger, smaller, i + 1, s2);
      CloseBorrowActs(larger, smaller, i, s3);
      if i + 1 == |larger| {
        WriteNothing(s1, r[1..], Stepped(s1, r[1..], 1));
        WriteNothing(s3, r[1..], Stepped(s3, r[1..], -1));
      }
      BorrowRound(l, r, s, s1, s2, s3, s4, Difference(s2, l[1..], r[1..], 0), Difference(s, l, r, 0));
    }
  }

  // ---------------------------------------------------------------- both circuits

  predicate Accepts(larger: seq<Qubit>, smaller: seq<Qubit>) {
    |larger| == |smaller| && Distinct(larger) && Distinct(smaller) && Disjoint(larger, smaller)
  }

  /** An ancilla for the complement adder lies outside both registers. */
  predicate UsableAncilla(larger: seq<Qubit>, smaller: seq<Qubit>, ancilla: Option<Qubit>) {
    ancilla.Some? ==> |larger| >= 1 && ancilla.value !in larger && ancilla.value !in smaller
  }

  /** Without an ancilla the borrows travel through smaller; with one, an adder works on the complement. */
  function SubtractGates(larger: seq<Qubit>, smaller: seq<Qubit>, ancilla: Option<Qubit>): seq<Gate>
    requires Accepts(larger, smaller)
  {
    match ancilla
    case None => BorrowFrom(larger, smaller, 0)
    case Some(c) => XLayer(larger) + [Block(AdderGates(c, smaller, larger))] + XLayer(larger)
  }

  function BorrowBit(s: State, ancilla: Option<Qubit>): nat {
    if ancilla.Some? then Bit(s, ancilla.value) else 0
  }

  lemma ComplementSubtracts(larger: seq<Qubit>, smaller: seq<Qubit>, c: nat, s: State, s1: State, s2: State, total: int, v: int)
    requires Accepts(larger, smaller) && c <= 1
    requires s1 == Complement(s, larger)
    requires total == Val(s1, larger) + Val(s1, smaller) + c && s2 == Write(s1, larger, total)
    requires v == Difference(s, larger, smaller, c)
    ensures Complement(s2, larger) == Write(s, larger, v)
  {
    var p, s3 := Pow2(|larger|), Complement(s2, larger);
    ComplementVal(s, s1, larger);
    ValAgree(s1, s, smaller);
    ValBound(s, larger);
    ValBound(s, smaller);
    WriteNear(s1, larger, total, if total >= p then total - p else total);
    ComplementVal(s2, s3, larger);
    HoldsNear(s3, larger, v);
    WriteUnique(s, s3, larger, v);
  }

  /**
   * Both circuits subtract: larger receives larger - smaller (less the ancilla's bit when
   * there is one) modulo 2^n, and every other qubit, smaller included, ends as it started.
   */
  lemma SubtractSubtracts(larger: seq<Qubit>, smaller: seq<Qubit>, ancilla: Option<Qubit>, s: State)
    requires Accepts(larger, smaller) && UsableAncilla(larger, smaller, ancilla)
    ensures Run(SubtractGates(larger, smaller, ancilla), s)
         == Write(s, larger, Difference(s, larger, smaller, BorrowBit(s, ancilla)))
  {
    match ancilla
    case None =>
      assert larger[0..] == larger && smaller[0..] == smaller;
      BorrowFromSubtracts(larger, smaller, 0, s);
    case Some(c) =>
      var add := AdderGates(c, smaller, larger);
      var s1 := Complement(s, larger);
      var s2 := Run(add, s1);
      RunAround(XLayer(larger), [Block(add)], XLayer(larger), s);
      RunXLayer(larger, s);
      RunOne(Block(add), s1);
      RunXLayer(larger, s2);
      AdderAdds(c, smaller, larger, s1);
      assert Bit(s1, c) == Bit(s, c);
      ComplementSubtracts(larger, smaller, Bit(s, c), s, s1, s2, Total(s1, c, smaller, larger),
                          Difference(s, larger, smaller, BorrowBit(s, ancilla)));
  }

  /** The two circuits do the same to every state exactly when the ancilla holds 0 (or the registers are empty). */
  lemma CircuitsAgree(larger: seq<Qubit>, smaller: seq<Qubit>, c: Qubit, s: State)
    requires Accepts(larger, smaller) && UsableAncilla(larger, smaller, Some(c))
    ensures Run(SubtractGates(larger, smaller, None), s) == Run(SubtractGates(larger, smaller, Some(c)), s) <==> c !in s
  {
    SubtractSubtracts(larger, smaller, None, s);
    SubtractSubtracts(larger, smaller, Some(c), s);
    if c in s {
      var v, w := Difference(s, larger, smaller, 0), Difference(s, larger, smaller, 1);
      assert v % 2 != w % 2;
    }
  }

  // ---------------------------------------------------------------- Subtraction::expand

  method BuildAddOne(smaller: seq<Qubit>, i: nat) returns (add1: Composite)
    requires i + 1 < |smaller|
    ensures fresh(add1) && add1.instructions == AddOne(smaller[i + 1..], |smaller| - i - 1)
  {
    add1 := new Composite();
    add1.AddInstruction(X(smaller[i + 1]));
    ghost var rest := smaller[i + 1..];
    var j := i + 1;
    while j < |smaller| - 1
      invariant i + 1 <= j <= |smaller| - 1
      invariant add1.instructions == AddOne(rest, j - i)
    {
      var controls := ControlsUpTo(smaller, i, j);
      AddXLayer(add1, controls);
      add1.AddInstruction(Controlled(controls, [X(smaller[j + 1])]));
      AddXLayer(add1, controls);
      assert controls == rest[..j - i] && smaller[j + 1] == rest[j - i];
      Associate(AddOne(rest, j - i), XLayer(controls), [Controlled(controls, [X(smaller[j + 1])])], XLayer(controls));
      j := j + 1;
    }
  }

  method BuildTakeOne(smaller: seq<Qubit>, i: nat) returns (take1: Composite)
    requires i + 1 < |smaller|
    ensures fresh(take1) && take1.instructions == TakeOne(smaller[i + 1..], |smaller| - i - 1)
  {
    take1 := new Composite();
    take1.AddInstruction(X(smaller[i + 1]));
    ghost var rest := smaller[i + 1..];
    var j := i + 1;
    while j < |smaller| - 1
      invariant i + 1 <= j <= |smaller| - 1
      invariant take1.instructions == TakeOne(rest, j - i)
    {
      var controls := ControlsUpTo(smaller, i, j);
      assert controls == rest[..j - i] && smaller[j + 1] == rest[j - i];
      take1.AddInstruction(Controlled(controls, [X(smaller[j + 1])]));
      j := j + 1;
    }
  }

  method ControlsUpTo(smaller: seq<Qubit>, i: nat, j: nat) returns (controls: seq<Qubit>)
    requires i < j < |smaller|
    ensures controls == smaller[i + 1..j + 1]
  {
    controls := [];
    var k := i + 1;
    while k <= j
      invariant i + 1 <= k <= j + 1
      invariant controls == smaller[i + 1..k]
    {
      controls := controls + [smaller[k]];
      k := k + 1;
    }
  }

  method EmitBorrows(circuit: Composite, larger: seq<Qubit>, smaller: seq<Qubit>)
    requires Accepts(larger, smaller)
    modifies circuit
    ensures circuit.instructions == old(circuit.instructions) + Openers(OpenBorrow(larger, smaller), |larger|)
  {
    ghost var open, before := OpenBorrow(larger, smaller), circuit.instructions;
    assert before + Openers(open, 0) == before;
    var i := 0;
    while i < |larger|
      invariant 0 <= i <= |larger|
      invariant circuit.instructions == before + Openers(open, i)
    {
      EmitBorrow(circuit, larger, smaller, i);
      EmitOpener(before, open, open(i), i);
      i := i + 1;
    }
  }

  /** One iteration of the forward loop. */
  method EmitBorrow(circuit: Composite, larger: seq<Qubit>, smaller: seq<Qubit>, i: nat)
    requires Accepts(larger, smaller) && i < |larger|
    modifies circuit
    ensures circuit.instructions == old(circuit.instructions) + OpenBorrow(larger, smaller)(i)
  {
    circuit.AddInstruction(CX(smaller[i], larger[i]));
    if i != |larger| - 1 {
      var add1 := BuildAddOne(smaller, i);
      circuit.AddInstruction(Controlled([smaller[i], larger[i]], add1.instructions));
    }
  }

  method EmitReturns(circuit: Composite, larger: seq<Qubit>, smaller: seq<Qubit>)
    requires Accepts(larger, smaller)
    modifies circuit
    ensures circuit.instructions == old(circuit.instructions) + Closers(CloseBorrow(larger, smaller), |larger|)
  {
    var gates := BuildReturns(larger, smaller);
    circuit.AddInstructions(gates);
  }

  method BuildReturns(larger: seq<Qubit>, smaller: seq<Qubit>) returns (gates: seq<Gate>)
    requires Accepts(larger, smaller)
    ensures gates == Closers(CloseBorrow(larger, smaller), |larger|)
  {
    gates := [];
    if |larger| == 0 { return; }
    ghost var close, whole := CloseBorrow(larger, smaller), Closers(CloseBorrow(larger, smaller), |larger| - 1);
    NothingToClose(close, |larger| - 1);
    for i := |larger| - 1 downto 0
      invariant gates + Closers(close, i) == whole
    {
      var more := BuildReturn(larger, smaller, i);
      EmitCloser(gates, more, close, i);
      gates := gates + more;
    }
  }

  /** One iteration of the backward loop. */
  method BuildReturn(larger: seq<Qubit>, smaller: seq<Qubit>, i: nat) returns (gates: seq<Gate>)
    requires Accepts(larger, smaller) && i + 1 < |larger|
    ensures gates == CloseBorrow(larger, smaller)(i)
  {
    var take1 := BuildTakeOne(smaller, i);
    gates := [Controlled([smaller[i], larger[i]], take1.instructions)];
  }

  method EmitSubtract(circuit: Composite, larger: seq<Qubit>, smaller: seq<Qubit>, ancilla: Option<Qubit>)
    requires Accepts(larger, smaller) && UsableAncilla(larger, smaller, ancilla)
    modifies circuit
    ensures circuit.instructions == old(circuit.instructions) + SubtractGates(larger, smaller, ancilla)
  {
    ghost var before := circuit.instructions;
    if ancilla.None? {
      ghost var open, close := OpenBorrow(larger, smaller), CloseBorrow(larger, smaller);
      EmitBorrows(circuit, larger, smaller);
      EmitReturns(circuit, larger, smaller);
      NestFromZero(open, [], close, |larger|);
      Associate(before, Openers(open, |larger|), [], Closers(close, |larger|));
      assert before + Openers(open, |larger|) + [] == before + Openers(open, |larger|);
    } else {
      AddXLayer(circuit, larger);
      var add := new Composite();
      var ok := ExpandRippleCarryAdder(add, smaller, larger, ancilla.value, true);
      assert larger == Written(smaller, larger, true);
      assert add.instructions == AdderGates(ancilla.value, smaller, larger);
      circuit.AddInstruction(Block(add.instructions));
      AddXLayer(circuit, larger);
      Associate(before, XLayer(larger), [Block(add.instructions)], XLayer(larger));
    }
  }

  method ExpandSubtraction(circuit: Composite, qubitsLarger: seq<Qubit>, qubitsSmaller: seq<Qubit>,
                           ancilla: Option<Qubit>, isLSB: bool) returns (ok: bool)
    requires UsableAncilla(qubitsLarger, qubitsSmaller, ancilla)
    modifies circuit
    ensures ok <==> Accepts(qubitsLarger, qubitsSmaller)
    ensures ok ==> Accepts(Oriented(qubitsLarger, isLSB), Oriented(qubitsSmaller, isLSB))
    ensures ok ==> circuit.instructions == old(circuit.instructions)
                   + SubtractGates(Oriented(qubitsLarger, isLSB), Oriented(qubitsSmaller, isLSB), ancilla)
    ensures !ok ==> circuit.instructions == old(circuit.instructions)
  {
    if |qubitsLarger| != |qubitsSmaller| { return false; }
    if !Distinct(qubitsLarger) || !Distinct(qubitsSmaller) { return false; }
    if exists q :: q in qubitsLarger && q in qubitsSmaller { return false; }
    OrientedSeparate(qubitsLarger, qubitsSmaller, isLSB);
    EmitSubtract(circuit, Oriented(qubitsLarger, isLSB), Oriented(qubitsSmaller, isLSB), ancilla);
    return true;
  }
}
