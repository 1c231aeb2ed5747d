/**
 * How the gates of a circuit move past the H, Rx and Ry gates that the deferral pass holds back. Each
 * rule concerns one or two qubits.
 */
module CommutationRules {
  import opened Observables
  import opened PauliPicture

  /** g when it is moved before the one-qubit gate l on the same qubit. */
  function Moved(l: Gate, g: Gate): Gate {
    if l.H? && g.X? then Z(g.q) else if l.H? && g.Z? then X(g.q) else g
  }

  /** l when g is moved before it. */
  function Left(l: Gate, g: Gate): Gate {
    match l
    case Rx(q, a) => if g.X? then l else Rx(q, a.Minus())
    case Ry(q, a) => if g.Y? then l else Ry(q, a.Minus())
    case _ => l
  }

  /** X, Y and Z pass H, Rx and Ry; H passes Ry. */
  predicate Passes(l: Gate, g: Gate) {
    && (((l.H? || l.Rx? || l.Ry?) && (g.X? || g.Y? || g.Z?)) || (l.Ry? && g.H?))
    && l.q == g.q
  }

  lemma PassesOnLetter(l: Gate, g: Gate, f: Letter -> real, a: Letter)
    requires Passes(l, g)
    ensures Expect(LetterPull, [l, g], f, a) == Expect(LetterPull, [Moved(l, g), Left(l, g)], f, a)
  {
    ExpectPair(LetterPull, l, g, f, a);
    ExpectPair(LetterPull, Moved(l, g), Left(l, g), f, a);
  }

  lemma PassesBefore(l: Gate, g: Gate)
    requires Passes(l, g)
    ensures Same([l, g], [Moved(l, g), Left(l, g)])
  {
    forall f: Letter -> real, a: Letter
      ensures Expect(LetterPull, [l, g], f, a) == Expect(LetterPull, [Moved(l, g), Left(l, g)], f, a)
    {
      PassesOnLetter(l, g, f, a);
    }
    OneQubitRule([l, g], [Moved(l, g), Left(l, g)], l.q);
  }

  lemma HTwice(q: nat)
    ensures Same([H(q), H(q)], [])
  {
    forall f: Letter -> real, a: Letter
      ensures Expect(LetterPull, [H(q), H(q)], f, a) == Expect(LetterPull, [], f, a)
    {
      ExpectPair(LetterPull, H(q), H(q), f, a);
    }
    OneQubitRule([H(q), H(q)], [], q);
  }

  predicate IsTurn(g: Gate) {
    g.Rx? || g.Ry? || g.U1?
  }

  function Turned(g: Gate, a: Angle): Gate
    requires IsTurn(g)
  {
    match g
    case Rx(q, _) => Rx(q, a)
    case Ry(q, _) => Ry(q, a)
    case U1(q, _) => U1(q, a)
  }

  function Along(minus: bool, v: real): real {
    if minus then -v else v
  }

  /** Two turns in a plane spanned by u and v, in which both have the same sense. */
  lemma PlaneTurns(a: Angle, b: Angle, minus: bool, u: real, v: real)
    ensures b.cos * (a.cos * u + Along(minus, a.sin) * v) + Along(minus, b.sin) * (a.cos * v + Along(!minus, a.sin) * u)
         == a.Plus(b).cos * u + Along(minus, a.Plus(b).sin) * v
  {
    if minus {
      assert b.cos * (a.cos * u - a.sin * v) - b.sin * (a.cos * v + a.sin * u)
          == (a.cos * b.cos - a.sin * b.sin) * u - (a.cos * b.sin + a.sin * b.cos) * v;
    } else {
      assert b.cos * (a.cos * u + a.sin * v) + b.sin * (a.cos * v - a.sin * u)
          == (a.cos * b.cos - a.sin * b.sin) * u + (a.cos * b.sin + a.sin * b.cos) * v;
    }
  }

  /** A turn either leaves a letter alone or mixes it with a second one, from which it leads back. */
  lemma TurnedLetter(g: Gate, l: Letter) returns (moves: bool, other: Letter, minus: bool)
    requires IsTurn(g)
    ensures forall a :: LetterPull(Turned(g, a), l) == if moves then Pulled(a.cos, l, Along(minus, a.sin), other) else Signed(false, l)
    ensures moves ==> forall a :: LetterPull(Turned(g, a), other) == Pulled(a.cos, other, Along(!minus, a.sin), l)
  {
    match g
    case Rx(_, _) =>
      moves, other, minus := l.z, Letter(!l.x, true), l.x;
    case Ry(_, _) =>
      moves, other, minus := l.x != l.z, Letter(l.z, l.x), !l.x;
    case U1(_, _) =>
      moves, other, minus := l.x, Letter(true, !l.z), !l.z;
  }

  lemma TurnsMix<P>(pull: (Gate, P) -> Pulled<P>, x: Gate, y: Gate, sum: Gate, f: P -> real, l: P, other: P,
                    a: Angle, b: Angle, ab: Angle, minus: bool)
    requires ab == a.Plus(b)
    requires pull(x, l) == Pulled(a.cos, l, Along(minus, a.sin), other) && pull(x, other) == Pulled(a.cos, other, Along(!minus, a.sin), l)
    requires pull(y, l) == Pulled(b.cos, l, Along(minus, b.sin), other)
    requires pull(sum, l) == Pulled(ab.cos, l, Along(minus, ab.sin), other)
    ensures Expect(pull, [x, y], f, l) == Expect(pull, [sum], f, l)
  {
    ExpectPair(pull, x, y, f, l);
    ExpectOne(pull, sum, f, l);
    PlaneTurns(a, b, minus, f(l), f(other));
  }

  lemma StaysPut<P>(pull: (Gate, P) -> Pulled<P>, x: Gate, y: Gate, sum: Gate, f: P -> real, l: P)
    requires pull(x, l) == pull(y, l) == pull(sum, l) == Pulled(1.0, l, 0.0, l)
    ensures Expect(pull, [x, y], f, l) == Expect(pull, [sum], f, l)
  {
    ExpectPair(pull, x, y, f, l);
    ExpectOne(pull, sum, f, l);
  }

  lemma TurnsAddOnLetter(g: Gate, a: Angle, b: Angle, ab: Angle, f: Letter -> real, l: Letter)
    requires IsTurn(g) && ab == a.Plus(b)
    ensures Expect(LetterPull, [Turned(g, a), Turned(g, b)], f, l) == Expect(LetterPull, [Turned(g, ab)], f, l)
  {
    var moves, other, minus := TurnedLetter(g, l);
    if moves {
      TurnsMix(LetterPull, Turned(g, a), Turned(g, b), Turned(g, ab), f, l, other, a, b, ab, minus);
    } else {
      StaysPut(LetterPull, Turned(g, a), Turned(g, b), Turned(g, ab), f, l);
    }
  }

  lemma TurnsAddTo(g: Gate, a: Angle, b: Angle, ab: Angle)
    requires IsTurn(g) && ab == a.Plus(b)
    ensures Same([Turned(g, a), Turned(g, b)], [Turned(g, ab)])
  {
    forall f: Letter -> real, l: Letter
      ensures Expect(LetterPull, [Turned(g, a), Turned(g, b)], f, l) == Expect(LetterPull, [Turned(g, ab)], f, l)
    {
      TurnsAddOnLetter(g, a, b, ab, f, l);
    }
    OneQubitRule([Turned(g, a), Turned(g, b)], [Turned(g, ab)], g.q);
  }

  /** Turns about the same axis add up. */
  lemma TurnsAdd(g: Gate, a: Angle, b: Angle)
    requires IsTurn(g)
    ensures Same([Turned(g, a), Turned(g, b)], [Turned(g, a.Plus(b))])
  {
    TurnsAddTo(g, a, b, a.Plus(b));
  }

  lemma NoTurn(g: Gate)
    requires IsTurn(g)
    ensures Same([Turned(g, NO_TURN)], [])
  {
    forall f: Letter -> real, l: Letter
      ensures Expect(LetterPull, [Turned(g, NO_TURN)], f, l) == Expect(LetterPull, [], f, l)
    {
      ExpectOne(LetterPull, Turned(g, NO_TURN), f, l);
    }
    OneQubitRule([Turned(g, NO_TURN)], [], g.q);
  }

  /** An H on the target turns CNOT into CZ and back. */
  lemma CNOTPastH(c: nat, t: nat)
    requires c != t
    ensures Same([H(t), CNOT(c, t)], [CZ(c, t), H(t)])
  {
    forall f: Letters -> real, kl: Letters
      ensures Expect(PullOn(c, t), [H(t), CNOT(c, t)], f, kl) == Expect(PullOn(c, t), [CZ(c, t), H(t)], f, kl)
    {
      ExpectPair(PullOn(c, t), H(t), CNOT(c, t), f, kl);
      ExpectPair(PullOn(c, t), CZ(c, t), H(t), f, kl);
    }
    TwoQubitRule([H(t), CNOT(c, t)], [CZ(c, t), H(t)], c, t);
  }

  lemma CZPastH(c: nat, t: nat)
    requires c != t
    ensures Same([H(t), CZ(c, t)], [CNOT(c, t), H(t)])
  {
    forall f: Letters -> real, kl: Letters
      ensures Expect(PullOn(c, t), [H(t), CZ(c, t)], f, kl) == Expect(PullOn(c, t), [CNOT(c, t), H(t)], f, kl)
    {
      ExpectPair(PullOn(c, t), H(t), CZ(c, t), f, kl);
      ExpectPair(PullOn(c, t), CNOT(c, t), H(t), f, kl);
    }
    TwoQubitRule([H(t), CZ(c, t)], [CNOT(c, t), H(t)], c, t);
  }

  /** An H on the control of CZ makes that qubit the target of a CNOT. */
  lemma HOnControl(c: nat, t: nat)
    requires c != t
    ensures Same([H(c), CZ(c, t)], [CNOT(t, c), H(c)])
  {
    forall f: Letters -> real, kl: Letters
      ensures Expect(PullOn(c, t), [H(c), CZ(c, t)], f, kl) == Expect(PullOn(c, t), [CNOT(t, c), H(c)], f, kl)
    {
      ExpectPair(PullOn(c, t), H(c), CZ(c, t), f, kl);
      ExpectPair(PullOn(c, t), CNOT(t, c), H(c), f, kl);
    }
    TwoQubitRule([H(c), CZ(c, t)], [CNOT(t, c), H(c)], c, t);
  }

  /** Turns about the axis that a controlled gate turns about commute with it. */
  lemma RxOnTargetAt(c: nat, t: nat, a: Angle, f: Letters -> real, kl: Letters)
    requires c != t
    ensures Expect(PullOn(c, t), [Rx(t, a), CNOT(c, t)], f, kl) == Expect(PullOn(c, t), [CNOT(c, t), Rx(t, a)], f, kl)
  {
    ExpectPair(PullOn(c, t), Rx(t, a), CNOT(c, t), f, kl);
    ExpectPair(PullOn(c, t), CNOT(c, t), Rx(t, a), f, kl);
  }

  lemma RxOnTarget(c: nat, t: nat, a: Angle)
    requires c != t
    ensures Same([Rx(t, a), CNOT(c, t)], [CNOT(c, t), Rx(t, a)])
  {
    forall f: Letters -> real, kl: Letters
      ensures Expect(PullOn(c, t), [Rx(t, a), CNOT(c, t)], f, kl) == Expect(PullOn(c, t), [CNOT(c, t), Rx(t, a)], f, kl)
    {
      RxOnTargetAt(c, t, a, f, kl);
    }
    TwoQubitRule([Rx(t, a), CNOT(c, t)], [CNOT(c, t), Rx(t, a)], c, t);
  }

  lemma RyOnTargetAt(c: nat, t: nat, a: Angle, f: Letters -> real, kl: Letters)
    requires c != t
    ensures Expect(PullOn(c, t), [Ry(t, a), CY(c, t)], f, kl) == Expect(PullOn(c, t), [CY(c, t), Ry(t, a)], f, kl)
  {
    ExpectPair(PullOn(c, t), Ry(t, a), CY(c, t), f, kl);
    ExpectPair(PullOn(c, t), CY(c, t), Ry(t, a), f, kl);
  }

  lemma RyOnTarget(c: nat, t: nat, a: Angle)
    requires c != t
    ensures Same([Ry(t, a), CY(c, t)], [CY(c, t), Ry(t, a)])
  {
    forall f: Letters -> real, kl: Letters
      ensures Expect(PullOn(c, t), [Ry(t, a), CY(c, t)], f, kl) == Expect(PullOn(c, t), [CY(c, t), Ry(t, a)], f, kl)
    {
      RyOnTargetAt(c, t, a, f, kl);
    }
    TwoQubitRule([Ry(t, a), CY(c, t)], [CY(c, t), Ry(t, a)], c, t);
  }

  lemma CYPastHAt(c: nat, t: nat, f: Letters -> real, kl: Letters)
    requires c != t
    ensures Expect(PullOn(c, t), [H(t), CY(c, t)], f, kl) == Expect(PullOn(c, t), [Z(c), CY(c, t), H(t)], f, kl)
  {
    ExpectPair(PullOn(c, t), H(t), CY(c, t), f, kl);
    ExpectThree(PullOn(c, t), Z(c), CY(c, t), H(t), f, kl);
    ExpectPair(PullOn(c, t), Z(c), CY(c, t), f, LettersPull(c, t, H(t), kl).p);
  }

  /** CY passes an H on its target at the price of a Z on its control. */
  lemma CYPastH(c: nat, t: nat)
    requires c != t
    ensures Same([H(t), CY(c, t)], [Z(c), CY(c, t), H(t)])
  {
    forall f: Letters -> real, kl: Letters
      ensures Expect(PullOn(c, t), [H(t), CY(c, t)], f, kl) == Expect(PullOn(c, t), [Z(c), CY(c, t), H(t)], f, kl)
    {
      CYPastHAt(c, t, f, kl);
    }
    TwoQubitRule([H(t), CY(c, t)], [Z(c), CY(c, t), H(t)], c, t);
  }

  function OnQubit(g: Gate, q: nat): Gate
    requires g.H? || g.Rx? || g.Ry?
  {
    match g
    case H(_) => H(q)
    case Rx(_, a) => Rx(q, a)
    case Ry(_, a) => Ry(q, a)
  }

  lemma SwappedLetters(g: Gate, c: nat, t: nat, f: Letters -> real, kl: Letters)
    requires c != t && (g.H? || g.Rx? || g.Ry?) && (g.q == c || g.q == t)
    ensures Expect(PullOn(c, t), [g, Swap(c, t)], f, kl)
         == Expect(PullOn(c, t), [Swap(c, t), OnQubit(g, if g.q == c then t else c)], f, kl)
  {
    ExpectPair(PullOn(c, t), g, Swap(c, t), f, kl);
    ExpectPair(PullOn(c, t), Swap(c, t), OnQubit(g, if g.q == c then t else c), f, kl);
  }

  /** Swapping carries a held gate over to the other qubit. */
  lemma HeldPastSwap(g: Gate, c: nat, t: nat)
    requires c != t && (g.H? || g.Rx? || g.Ry?) && (g.q == c || g.q == t)
    ensures Same([g, Swap(c, t)], [Swap(c, t), OnQubit(g, if g.q == c then t else c)])
  {
    var g' := OnQubit(g, if g.q == c then t else c);
    forall f: Letters -> real, kl: Letters
      ensures Expect(PullOn(c, t), [g, Swap(c, t)], f, kl) == Expect(PullOn(c, t), [Swap(c, t), g'], f, kl)
    {
      SwappedLetters(g, c, t, f, kl);
    }
    TwoQubitRule([g, Swap(c, t)], [Swap(c, t), g'], c, t);
  }

  lemma SwapEitherWay(c: nat, t: nat)
    requires c != t
    ensures Same([Swap(c, t)], [Swap(t, c)])
  {
    forall f: Letters -> real, kl: Letters
      ensures Expect(PullOn(c, t), [Swap(c, t)], f, kl) == Expect(PullOn(c, t), [Swap(t, c)], f, kl)
    {
      ExpectOne(PullOn(c, t), Swap(c, t), f, kl);
      ExpectOne(PullOn(c, t), Swap(t, c), f, kl);
    }
    TwoQubitRule([Swap(c, t)], [Swap(t, c)], c, t);
  }

  /** An H on the control does not pass a CNOT unchanged. */
  lemma HAndCNOTDiffer(c: nat, t: nat)
    requires c != t
    ensures !Same([CNOT(c, t), H(c)], [H(c), CNOT(c, t)])
  {
    var zOnTarget, xOnControlToo := Pauli({}, {t}), Pauli({c}, {t});
    var f := (p: Pauli) => if p == xOnControlToo then 1.0 else 0.0;
    ExpectPair(Pull, CNOT(c, t), H(c), f, zOnTarget);
    ExpectPair(Pull, H(c), CNOT(c, t), f, zOnTarget);
    assert Pull(H(c), zOnTarget).p == zOnTarget;
    assert Pull(CNOT(c, t), zOnTarget).p == Pauli({}, {c, t});
    assert Pull(H(c), Pauli({}, {c, t})).p == xOnControlToo;
    assert Expect(Pull, [CNOT(c, t), H(c)], f, zOnTarget) == 0.0;
    assert Expect(Pull, [H(c), CNOT(c, t)], f, zOnTarget) == 1.0;
  }

  // ---------------------------------------------------------------- inverses

  lemma TurnProper(a: Angle, b: Angle)
    requires a.Proper() && b.Proper()
    ensures a.Plus(b).Proper() && a.Minus().Proper()
  {
    var x, y, u, v := a.cos, a.sin, b.cos, b.sin;
    assert (x * u - y * v) * (x * u - y * v) + (x * v + y * u) * (x * v + y * u) == (x * x + y * y) * (u * u + v * v);
  }

  function InverseOf(g: Gate): Gate {
    if IsTurn(g) then Turned(g, g.angle.Minus()) else g
  }

  lemma PairTwice(g: Gate, f: Letters -> real, kl: Letters)
    requires OnTwo(g) && g.c != g.t
    ensures Expect(PullOn(g.c, g.t), [g, g], f, kl) == f(kl)
  {
    ExpectPair(PullOn(g.c, g.t), g, g, f, kl);
  }

  lemma LetterTwice(g: Gate, f: Letter -> real, l: Letter)
    requires !OnTwo(g) && !IsTurn(g)
    ensures Expect(LetterPull, [g, g], f, l) == f(l)
  {
    ExpectPair(LetterPull, g, g, f, l);
  }

  lemma TurnBack(g: Gate, a: Angle)
    requires IsTurn(g) && a.Proper()
    ensures Same([Turned(g, a), Turned(g, a.Minus())], []) && Same([Turned(g, a.Minus()), Turned(g, a)], [])
  {
    TurnsAdd(g, a, a.Minus());
    TurnsAdd(g, a.Minus(), a);
    assert a.Plus(a.Minus()) == NO_TURN == a.Minus().Plus(a);
    NoTurn(g);
  }

  /** Every gate of the emitted set has an inverse in it. */
  lemma GateInverts(g: Gate)
    requires Proper(g)
    ensures Same([InverseOf(g), g], []) && Same([g, InverseOf(g)], [])
  {
    if OnTwo(g) {
      forall f: Letters -> real, kl: Letters
        ensures Expect(PullOn(g.c, g.t), [g, g], f, kl) == Expect(PullOn(g.c, g.t), [], f, kl)
      {
        PairTwice(g, f, kl);
      }
      TwoQubitRule([g, g], [], g.c, g.t);
    } else if IsTurn(g) {
      assert Turned(g, g.angle) == g;
      TurnBack(g, g.angle);
    } else {
      forall f: Letter -> real, l: Letter
        ensures Expect(LetterPull, [g, g], f, l) == Expect(LetterPull, [], f, l)
      {
        LetterTwice(g, f, l);
      }
      OneQubitRule([g, g], [], g.q);
    }
  }

  ghost predicate ProperGates(gs: seq<Gate>) {
    forall g :: g in gs ==> Proper(g)
  }

  lemma ProperInvertible(gs: seq<Gate>)
    requires ProperGates(gs)
    ensures Invertible(Pull, InverseOf, gs)
  {
    forall g | g in gs
      ensures Same([InverseOf(g), g], []) && Same([g, InverseOf(g)], [])
    {
      GateInverts(g);
    }
  }

  lemma ProperConcat(a: seq<Gate>, b: seq<Gate>)
    requires ProperGates(a) && ProperGates(b)
    ensures ProperGates(a + b)
  {}
}
