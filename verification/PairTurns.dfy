/**
 * Parametric gates on one and two qubits as products of turns and CNOTs, and the gates of the
 * products undone.
 */
module PairTurns {
  import opened Observables
  import opened PauliPicture
  import opened CommutationRules

  /** The parametric gates besides Rx, Ry, Rz and U. */
  datatype Kind = Phase | Rphi | CPhase | CRX | CRY | CRZ | RZZ | XX | XY | FSim

  predicate Shaped(kind: Kind, qubits: seq<nat>, angles: seq<Angle>) {
    && |angles| == (if kind.FSim? then 2 else 1)
    && |qubits| == if kind.Phase? || kind.Rphi? then 1 else 2
  }

  /** A turn about Z on both qubits. */
  function ZZGates(c: nat, t: nat, a: Angle): seq<Gate> {
    [CNOT(c, t), U1(t, a), CNOT(c, t)]
  }

  function XXGates(c: nat, t: nat, a: Angle): seq<Gate> {
    [H(c), H(t)] + ZZGates(c, t, a) + [H(t), H(c)]
  }

  function YYGates(c: nat, t: nat, a: Angle): seq<Gate> {
    var back := QUARTER_TURN.Minus();
    [Rx(c, QUARTER_TURN), Rx(t, QUARTER_TURN)] + ZZGates(c, t, a) + [Rx(t, back), Rx(c, back)]
  }

  function XYGates(c: nat, t: nat, a: Angle): seq<Gate> {
    XXGates(c, t, a) + YYGates(c, t, a.Plus(a)) + XXGates(c, t, a)
  }

  function CRZGates(c: nat, t: nat, a: Angle): seq<Gate> {
    [U1(t, a)] + ZZGates(c, t, a.Plus(a).Minus()) + [U1(t, a)]
  }

  function CPhaseGates(c: nat, t: nat, a: Angle): seq<Gate> {
    [U1(c, a), U1(t, a)] + ZZGates(c, t, a.Plus(a).Minus()) + [U1(t, a), U1(c, a)]
  }

  /**
   * The gates of a parametric leaf. The angle given is the part of the source's angle that the first turn takes:
   * a quarter for the controlled turns, half for XY and for the first angle of fSim, and an eighth for its second.
   */
  function TurnGates(kind: Kind, qubits: seq<nat>, angles: seq<Angle>): seq<Gate>
    requires Shaped(kind, qubits, angles)
  {
    var q, a := qubits[0], angles[0];
    match kind
    case Phase => [U1(q, a)]
    case Rphi => [U1(q, a)]
    case RZZ => ZZGates(q, qubits[1], a)
    case XX => XXGates(q, qubits[1], a)
    case XY => XYGates(q, qubits[1], a)
    case CRX => [Ry(qubits[1], QUARTER_TURN.Minus())] + CRZGates(q, qubits[1], a) + [Ry(qubits[1], QUARTER_TURN)]
    case CRY => [Rx(qubits[1], QUARTER_TURN)] + CRZGates(q, qubits[1], a) + [Rx(qubits[1], QUARTER_TURN.Minus())]
    case CRZ => CRZGates(q, qubits[1], a)
    case CPhase => CPhaseGates(q, qubits[1], a)
    case FSim => CPhaseGates(q, qubits[1], angles[1]) + XYGates(q, qubits[1], a) + CPhaseGates(q, qubits[1], angles[1])
  }

  /** The first angle is negated, and for fSim the second. */
  function Negated(kind: Kind, angles: seq<Angle>): seq<Angle> {
    seq(|angles|, i requires 0 <= i < |angles| =>
      if i == 0 || (i == 1 && kind.FSim?) then angles[i].Minus() else angles[i])
  }

  // ---------------------------------------------------------------- undoing gate by gate

  lemma {:induction false} UndoConcat(a: seq<Gate>, b: seq<Gate>)
    ensures Undo(InverseOf, a + b) == Undo(InverseOf, b) + Undo(InverseOf, a)
  {
    if a == [] {
      assert a + b == b;
    } else {
      assert (a + b)[1..] == a[1..] + b;
      UndoConcat(a[1..], b);
    }
  }

  lemma UndoOne(g: Gate)
    ensures Undo(InverseOf, [g]) == [InverseOf(g)]
  {
    assert [g][1..] == [];
  }

  lemma UndoTwo(g: Gate, h: Gate)
    ensures Undo(InverseOf, [g, h]) == [InverseOf(h), InverseOf(g)]
  {
    assert [g, h] == [g] + [h];
    UndoConcat([g], [h]);
    UndoOne(g);
    UndoOne(h);
  }

  lemma UndoAround(a: seq<Gate>, b: seq<Gate>, c: seq<Gate>)
    ensures Undo(InverseOf, a + b + c) == Undo(InverseOf, c) + Undo(InverseOf, b) + Undo(InverseOf, a)
  {
    UndoConcat(a + b, c);
    UndoConcat(a, b);
    assert Undo(InverseOf, c) + (Undo(InverseOf, b) + Undo(InverseOf, a))
        == Undo(InverseOf, c) + Undo(InverseOf, b) + Undo(InverseOf, a);
  }

  lemma ZZUndone(c: nat, t: nat, a: Angle)
    ensures Undo(InverseOf, ZZGates(c, t, a)) == ZZGates(c, t, a.Minus())
  {
    assert ZZGates(c, t, a) == [CNOT(c, t)] + [U1(t, a)] + [CNOT(c, t)];
    UndoAround([CNOT(c, t)], [U1(t, a)], [CNOT(c, t)]);
    UndoOne(CNOT(c, t));
    UndoOne(U1(t, a));
  }

  lemma XXUndone(c: nat, t: nat, a: Angle)
    ensures Undo(InverseOf, XXGates(c, t, a)) == XXGates(c, t, a.Minus())
  {
    ZZUndone(c, t, a);
    UndoTwo(H(c), H(t));
    UndoTwo(H(t), H(c));
    UndoAround([H(c), H(t)], ZZGates(c, t, a), [H(t), H(c)]);
  }

  lemma YYUndone(c: nat, t: nat, a: Angle)
    ensures Undo(InverseOf, YYGates(c, t, a)) == YYGates(c, t, a.Minus())
  {
    var back := QUARTER_TURN.Minus();
    ZZUndone(c, t, a);
    UndoTwo(Rx(c, QUARTER_TURN), Rx(t, QUARTER_TURN));
    UndoTwo(Rx(t, back), Rx(c, back));
    UndoAround([Rx(c, QUARTER_TURN), Rx(t, QUARTER_TURN)], ZZGates(c, t, a), [Rx(t, back), Rx(c, back)]);
  }

  lemma MinusTwice(a: Angle)
    ensures a.Minus().Plus(a.Minus()) == a.Plus(a).Minus()
  {}

  lemma XYUndone(c: nat, t: nat, a: Angle)
    ensures Undo(InverseOf, XYGates(c, t, a)) == XYGates(c, t, a.Minus())
  {
    XXUndone(c, t, a);
    YYUndone(c, t, a.Plus(a));
    MinusTwice(a);
    UndoAround(XXGates(c, t, a), YYGates(c, t, a.Plus(a)), XXGates(c, t, a));
  }

  lemma CRZUndone(c: nat, t: nat, a: Angle)
    ensures Undo(InverseOf, CRZGates(c, t, a)) == CRZGates(c, t, a.Minus())
  {
    MinusTwice(a);
    ZZUndone(c, t, a.Plus(a).Minus());
    UndoOne(U1(t, a));
    UndoAround([U1(t, a)], ZZGates(c, t, a.Plus(a).Minus()), [U1(t, a)]);
  }

  lemma CPhaseUndone(c: nat, t: nat, a: Angle)
    ensures Undo(InverseOf, CPhaseGates(c, t, a)) == CPhaseGates(c, t, a.Minus())
  {
    MinusTwice(a);
    ZZUndone(c, t, a.Plus(a).Minus());
    UndoTwo(U1(c, a), U1(t, a));
    UndoTwo(U1(t, a), U1(c, a));
    UndoAround([U1(c, a), U1(t, a)], ZZGates(c, t, a.Plus(a).Minus()), [U1(t, a), U1(c, a)]);
  }

  /** The gates that the source gives a case of their own. */
  predicate Listed(kind: Kind) {
    !kind.CRX? && !kind.CRY?
  }

  /** With the angles negated, a listed gate is the gate undone. */
  lemma TurnUndoes(kind: Kind, qubits: seq<nat>, angles: seq<Angle>)
    requires Shaped(kind, qubits, angles) && Listed(kind)
    ensures Shaped(kind, qubits, Negated(kind, angles))
    ensures TurnGates(kind, qubits, Negated(kind, angles)) == Undo(InverseOf, TurnGates(kind, qubits, angles))
  {
    var q, a := qubits[0], angles[0];
    match kind
    case Phase => UndoOne(U1(q, a));
    case Rphi => UndoOne(U1(q, a));
    case RZZ => ZZUndone(q, qubits[1], a);
    case XX => XXUndone(q, qubits[1], a);
    case XY => XYUndone(q, qubits[1], a);
    case CRZ => CRZUndone(q, qubits[1], a);
    case CPhase => CPhaseUndone(q, qubits[1], a);
    case FSim =>
      CPhaseUndone(q, qubits[1], angles[1]);
      XYUndone(q, qubits[1], a);
      UndoAround(CPhaseGates(q, qubits[1], angles[1]), XYGates(q, qubits[1], a), CPhaseGates(q, qubits[1], angles[1]));
  }

  // ---------------------------------------------------------------- the axes of the turns

  lemma AboutXOnLetter(q: nat, a: Angle, f: Letter -> real, l: Letter)
    ensures Expect(LetterPull, [H(q), U1(q, a), H(q)], f, l) == Expect(LetterPull, [Rx(q, a)], f, l)
  {
    ExpectThree(LetterPull, H(q), U1(q, a), H(q), f, l);
    ExpectPair(LetterPull, H(q), U1(q, a), f, Letter(l.z, l.x));
    ExpectOne(LetterPull, Rx(q, a), f, l);
  }

  /** Between two H a turn about Z is one about X, ... */
  lemma TurnAboutX(q: nat, a: Angle)
    ensures Same([H(q), U1(q, a), H(q)], [Rx(q, a)])
  {
    forall f: Letter -> real, l: Letter
      ensures Expect(LetterPull, [H(q), U1(q, a), H(q)], f, l) == Expect(LetterPull, [Rx(q, a)], f, l)
    {
      AboutXOnLetter(q, a, f, l);
    }
    OneQubitRule([H(q), U1(q, a), H(q)], [Rx(q, a)], q);
  }

  lemma AboutYOnLetter(x: Gate, z: Gate, y: Gate, q: nat, a: Angle, f: Letter -> real, l: Letter)
    requires x == Rx(q, QUARTER_TURN) && z == U1(q, a) && y == Rx(q, QUARTER_TURN.Minus())
    ensures Expect(LetterPull, [x, z, y], f, l) == Expect(LetterPull, [Ry(q, a)], f, l)
  {
    ExpectThree(LetterPull, x, z, y, f, l);
    ExpectOne(LetterPull, Ry(q, a), f, l);
    if l.z {
      ExpectPair(LetterPull, x, z, f, Letter(!l.x, true));
    } else {
      ExpectPair(LetterPull, x, z, f, l);
    }
  }

  /** ... and between a quarter turn about X and its inverse one about Y. */
  lemma TurnAboutY(q: nat, a: Angle)
    ensures Same([Rx(q, QUARTER_TURN), U1(q, a), Rx(q, QUARTER_TURN.Minus())], [Ry(q, a)])
  {
    var x, z, y := Rx(q, QUARTER_TURN), U1(q, a), Rx(q, QUARTER_TURN.Minus());
    forall f: Letter -> real, l: Letter
      ensures Expect(LetterPull, [x, z, y], f, l) == Expect(LetterPull, [Ry(q, a)], f, l)
    {
      AboutYOnLetter(x, z, y, q, a, f, l);
    }
    OneQubitRule([x, z, y], [Ry(q, a)], q);
  }
}
