/** Writing a score for every state of a register, on a walk through the reflected binary code. */
module EfficientEncoding {
  import opened Registers
  import opened Gates
  import opened GrayCode
  import opened EncodingSteps
  import opened EncodingWalk
  import opened EncodingSoundness
  import opened AncillaChoice
  import L = AncillaLadder

  // ---------------------------------------------------------------- EfficientEncoding::expand

  method SelectScore(d: Wires, v: int) returns (reg: seq<Qubit>)
    ensures reg == Selected(d.score, v, |d.score|)
  {
    reg := [];
    for j := 0 to |d.score|
      invariant reg == Selected(d.score, v, j)
    {
      if v / Pow2(j) % 2 == 1 {
        reg := reg + [d.score[j]];
      }
    }
  }

  method BuildScore(d: Wires, v: int) returns (gates: seq<Gate>)
    ensures gates == ScoreGates(d, v, |d.score|)
  {
    gates := [];
    for j := 0 to |d.score|
      invariant gates == ScoreGates(d, v, j)
    {
      if v / Pow2(j) % 2 == 1 {
        gates := gates + [Controlled(d.states, [X(d.score[j])])];
      }
    }
  }

  method BuildLadder(d: Wires, reg: seq<Qubit>) returns (gates: seq<Gate>)
    requires 2 <= |d.states| <= |d.anc| + 1
    ensures gates == L.Ladder(d.states, d.anc, XLayer(reg))
  {
    var u := new Composite();
    AddXLayer(u, reg);
    assert u.instructions == XLayer(reg);
    var mcu := new Composite();
    L.ExpandAncillaLadder(mcu, d.states, d.anc, u.instructions);
    gates := mcu.instructions;
    assert gates == L.Ladder(d.states, d.anc, XLayer(reg));
  }

  method BuildStep(d: Wires, f: int -> int, k: int) returns (gates: seq<Gate>)
    requires d.Fits()
    ensures gates == StepGates(d, f, k)
  {
    gates := [];
    if k == d.flagInteger && |d.flags| > 0 {
      var x := new Composite();
      AddXLayer(x, d.flags);
      assert x.instructions == XLayer(d.flags);
      gates := [Controlled(d.states, x.instructions)];
    }
    if d.useAncilla {
      var reg := SelectScore(d, f(k));
      var mcu := BuildLadder(d, reg);
      gates := gates + mcu;
    } else {
      var score := BuildScore(d, f(k));
      gates := gates + score;
    }
  }

  method IndexOfBits(c: Bits, isLSB: bool) returns (k: nat)
    ensures k == Index(c, isLSB)
  {
    var bits := if isLSB then Reverse(c) else c;
    k := 0;
    for j := 0 to |bits|
      invariant k == Index(bits[..j], false)
    {
      assert bits[..j + 1][..j] == bits[..j];
      k := 2 * k + if bits[j] then 1 else 0;
    }
    assert bits[..|bits|] == bits;
    if isLSB { IndexReversed(c); }
  }

  lemma {:induction false} IndexReversed(c: Bits)
    ensures Index(Reverse(c), false) == Index(c, true)
  {
    if c != [] {
      IndexReversed(c[1..]);
      assert Reverse(c)[..|c| - 1] == Reverse(c[1..]);
    }
  }

  method BitToFlip(d: Wires, i: nat, current: Bits) returns (q: Qubit)
    requires d.Fits() && i < Pow2(|d.states|) && current == Flipped(Code(i, |d.states|))
    ensures q == FlipAt(d, i)
  {
    FlipAdvances(d, i);
    if i == Pow2(|d.states|) - 1 {
      LastAdvance(d);
      AdvanceUnique(d, i, d.states[0], FlipAt(d, i));
      return d.states[0];
    }
    var next := CurrentState(i + 1, |d.states|);
    var j := DifferentBit(current, next);
    ghost var a := Adjacent(i, |d.states|);
    assert current[a] != next[a];
    assert j == a;
    CodesAdvance(d, i, a);
    AdvanceUnique(d, i, d.states[a], FlipAt(d, i));
    q := d.states[j];
  }

  method EncodeStep(d: Wires, f: int -> int, i: nat) returns (gates: seq<Gate>)
    requires d.Fits() && i < Pow2(|d.states|)
    ensures gates == StepsOf(d, f)(i)
  {
    var current := CurrentState(i, |d.states|);
    var k := IndexOfBits(current, d.isLSB);
    var step := BuildStep(d, f, k);
    var q := BitToFlip(d, i, current);
    gates := step + [X(q)];
  }

  method AddMissing(given: Wires) returns (d: Wires)
    ensures d == Equipped(given)
  {
    d := given;
    if d.useAncilla {
      var anc := ChooseAncillas(d);
      d := d.(anc := anc);
    }
  }

  /**
   * Missing ancillas are chosen, and the walk is emitted step by step. If the ancillas are clean and sound,
   * the score of the state in the state register is added bit by bit, modulo 2, to the score register and
   * the flags are inverted for the flagged state; all else is restored.
   */
  method ExpandEfficientEncoding(given: Wires, f: int -> int) returns (d: Wires, gates: seq<Gate>)
    requires given.Registers() && (given.useAncilla ==> |given.states| >= 2)
    ensures d == Equipped(given) && d.Fits() && gates == EncodingGates(d, f)
    ensures d.Valid() ==> forall s :: Run(gates, s) == Encoded(s, d, f)
    ensures d.Valid() && Sound(d) ==> forall s :: (d.useAncilla ==> Clean(s, d)) ==>
                                        Run(gates, s) == Inverted(s, Payload(d, f, IndexOf(s, d)))
  {
    d := AddMissing(given);
    gates := [];
    ghost var steps := StepsOf(d, f);
    for i := 0 to Pow2(|d.states|)
      invariant gates == Chain(steps, i)
    {
      var step := EncodeStep(d, f, i);
      gates := gates + step;
    }
    if d.Valid() { WalkDone(gates, d, f); }
  }

  lemma WalkDone(gates: seq<Gate>, d: Wires, f: int -> int)
    requires d.Valid() && gates == EncodingGates(d, f)
    ensures forall s :: Run(gates, s) == Encoded(s, d, f)
    ensures Sound(d) ==> forall s :: (d.useAncilla ==> Clean(s, d)) ==>
                           Run(gates, s) == Inverted(s, Payload(d, f, IndexOf(s, d)))
  {
    forall s
      ensures Run(gates, s) == Encoded(s, d, f)
    {
      EncodingActs(d, f, s);
    }
    EncodingExact(d);
  }
}
