/** The controlled turns, twice and by half a turn. */
module KeptTurns {
  import opened Observables
  import opened PauliPicture
  import opened CommutationRules
  import opened PairTurns

  // ---------------------------------------------------------------- turns about Z on two qubits

  function Mixed(a: Angle, minus: bool, u: real, v: real): real {
    a.cos * u + Sign(minus) * a.sin * v
  }

  /** A turn between two gates that map strings to strings, the first with the signs n and m. */
  lemma Between<P>(pull: (Gate, P) -> Pulled<P>, x: Gate, z: Gate, f: P -> real, p: P, p1: P, p2: P, q: P,
                   a: Angle, n: bool, m: bool, minus: bool, all: bool)
    requires pull(x, p) == Pulled(Sign(n), p1, 0.0, p1) && pull(x, p1) == Pulled(Sign(n), p, 0.0, p)
    requires pull(z, p1) == Pulled(a.cos, p1, if minus then -a.sin else a.sin, p2) && pull(x, p2) == Pulled(Sign(m), q, 0.0, q)
    requires all == ((n != m) != minus)
    ensures Expect(pull, [x, z, x], f, p) == Mixed(a, all, f(p), f(q))
  {
    ExpectThree(pull, x, z, x, f, p);
    ExpectPair(pull, x, z, f, p1);
    Signs(a.cos, a.sin, f(p), f(q), n, m, minus);
  }

  lemma Signs(cos: real, sin: real, u: real, v: real, n: bool, m: bool, minus: bool)
    ensures Sign(n) * (cos * (Sign(n) * u) + (if minus then -sin else sin) * (Sign(m) * v))
         == cos * u + Sign((n != m) != minus) * sin * v
  {}

  lemma Untouched<P>(pull: (Gate, P) -> Pulled<P>, x: Gate, z: Gate, f: P -> real, p: P, p1: P, n: bool)
    requires pull(x, p) == Pulled(Sign(n), p1, 0.0, p1) && pull(x, p1) == Pulled(Sign(n), p, 0.0, p)
    requires pull(z, p1) == Pulled(1.0, p1, 0.0, p1)
    ensures Expect(pull, [x, z, x], f, p) == f(p)
  {
    ExpectThree(pull, x, z, x, f, p);
    ExpectPair(pull, x, z, f, p1);
  }

  /** A letter times Z. */
  function Shift(l: Letter): Letter {
    Letter(l.x, !l.z)
  }

  /** Whether a turn about Z on both qubits mixes in the letters times Z with a minus. */
  predicate Minus(k: Letter, l: Letter) {
    if k.x then !k.z else !l.z
  }

  /** Letters that a turn about Z on both qubits commutes with are left alone, ... */
  lemma ZZLeaves(c: nat, t: nat, a: Angle, f: Letters -> real, k: Letter, l: Letter)
    requires c != t && k.x == l.x
    ensures Expect(PullOn(c, t), ZZGates(c, t, a), f, (k, l)) == f((k, l))
  {
    var d := PullPair(CNOT(c, t), k, l);
    Untouched(PullOn(c, t), CNOT(c, t), U1(t, a), f, (k, l), (d.1, d.2), d.0);
  }

  /** ... and others are mixed with the letters times Z. */
  lemma ZZMixes(c: nat, t: nat, a: Angle, f: Letters -> real, k: Letter, l: Letter)
    requires c != t && k.x != l.x
    ensures Expect(PullOn(c, t), ZZGates(c, t, a), f, (k, l))
         == Mixed(a, Minus(k, l), f((k, l)), f((Shift(k), Shift(l))))
  {
    var d := PullPair(CNOT(c, t), k, l);
    var e := PullPair(CNOT(c, t), d.1, Shift(d.2));
    Between(PullOn(c, t), CNOT(c, t), U1(t, a), f, (k, l), (d.1, d.2), (d.1, Shift(d.2)), (Shift(k), Shift(l)),
            a, d.0, e.0, !d.2.z, Minus(k, l));
  }

  lemma SameString(c: nat, t: nat, f: Pauli -> real, p: Pauli)
    ensures Restrict(f, PlacedTwo(p, c, t))((At(p, c), At(p, t))) == f(p)
  {
    PutPut(p, c, At(p, c), At(p, c));
    PutPut(p, t, At(p, t), At(p, t));
  }

  lemma ZZWithin(c: nat, t: nat, a: Angle)
    ensures AllWithin(ZZGates(c, t, a), c, t)
  {}

  /** On a Pauli string. */
  lemma ZZOnString(c: nat, t: nat, a: Angle, f: Pauli -> real, p: Pauli, k: Letter, l: Letter)
    requires c != t && k == At(p, c) && l == At(p, t)
    ensures Expect(Pull, ZZGates(c, t, a), f, p)
         == if k.x == l.x then f(p) else Mixed(a, Minus(k, l), f(p), f(PutTwo(p, c, Shift(k), t, Shift(l))))
  {
    ZZWithin(c, t, a);
    LocalizeTwo(ZZGates(c, t, a), c, t, f, p);
    SameString(c, t, f, p);
    Placing(c, t, f, p, Shift(k), Shift(l));
    ZZPlaced(c, t, a, Restrict(f, PlacedTwo(p, c, t)), k, l);
  }

  lemma Placing(c: nat, t: nat, f: Pauli -> real, p: Pauli, k: Letter, l: Letter)
    ensures Restrict(f, PlacedTwo(p, c, t))((k, l)) == f(PutTwo(p, c, k, t, l))
  {}

  lemma ZZPlaced(c: nat, t: nat, a: Angle, f: Letters -> real, k: Letter, l: Letter)
    requires c != t
    ensures Expect(PullOn(c, t), ZZGates(c, t, a), f, (k, l))
         == if k.x == l.x then f((k, l)) else Mixed(a, Minus(k, l), f((k, l)), f((Shift(k), Shift(l))))
  {
    if k.x == l.x {
      ZZLeaves(c, t, a, f, k, l);
    } else {
      ZZMixes(c, t, a, f, k, l);
    }
  }

  lemma ZZEitherWay(c: nat, t: nat, a: Angle)
    requires c != t
    ensures Same(ZZGates(c, t, a), ZZGates(t, c, a))
  {
    forall f: Pauli -> real, p: Pauli
      ensures Expect(Pull, ZZGates(c, t, a), f, p) == Expect(Pull, ZZGates(t, c, a), f, p)
    {
      var k, l := At(p, c), At(p, t);
      ZZOnString(c, t, a, f, p, k, l);
      ZZOnString(t, c, a, f, p, l, k);
      PutCommute(p, c, Shift(k), t, Shift(l));
    }
  }

  /** A turn and a gate that maps strings to strings, in both orders. */
  lemma Crosses<P>(pull: (Gate, P) -> Pulled<P>, u: Gate, x: Gate, f: P -> real, p: P, p2: P, d: P, d2: P,
                   cos: real, sin: real, n: bool, m: bool)
    requires pull(x, p) == Pulled(Sign(n), d, 0.0, d) && pull(x, p2) == Pulled(Sign(m), d2, 0.0, d2)
    requires pull(u, p) == Pulled(cos, p, sin, p2) && pull(u, d) == Pulled(cos, d, if n == m then sin else -sin, d2)
    ensures Expect(pull, [u, x], f, p) == Expect(pull, [x, u], f, p)
  {
    ExpectPair(pull, u, x, f, p);
    ExpectPair(pull, x, u, f, p);
    CrossedSigns(cos, sin, f(d), f(d2), n, m);
  }

  lemma CrossedSigns(cos: real, sin: real, v: real, w: real, n: bool, m: bool)
    ensures Sign(n) * (cos * v + (if n == m then sin else -sin) * w) == cos * (Sign(n) * v) + sin * (Sign(m) * w)
  {}

  lemma TurnOnControlAt(c: nat, t: nat, a: Angle, f: Letters -> real, k: Letter, l: Letter)
    requires c != t
    ensures Expect(PullOn(c, t), [U1(c, a), CNOT(c, t)], f, (k, l)) == Expect(PullOn(c, t), [CNOT(c, t), U1(c, a)], f, (k, l))
  {
    var u, x := U1(c, a), CNOT(c, t);
    var d, e := PullPair(x, k, l), PullPair(x, Shift(k), l);
    if k.x {
      Crosses(PullOn(c, t), u, x, f, (k, l), (Shift(k), l), (d.1, d.2), (Shift(d.1), d.2),
              a.cos, if k.z then a.sin else -a.sin, d.0, e.0);
    } else {
      Crosses(PullOn(c, t), u, x, f, (k, l), (k, l), (d.1, d.2), (d.1, d.2), 1.0, 0.0, d.0, d.0);
    }
  }

  lemma TurnOnControl(c: nat, t: nat, a: Angle)
    requires c != t
    ensures Same([U1(c, a), CNOT(c, t)], [CNOT(c, t), U1(c, a)])
  {
    forall f: Letters -> real, kl: Letters
      ensures Expect(PullOn(c, t), [U1(c, a), CNOT(c, t)], f, kl) == Expect(PullOn(c, t), [CNOT(c, t), U1(c, a)], f, kl)
    {
      TurnOnControlAt(c, t, a, f, kl.0, kl.1);
    }
    TwoQubitRule([U1(c, a), CNOT(c, t)], [CNOT(c, t), U1(c, a)], c, t);
  }

  lemma TurnPastZZ(c: nat, t: nat, a: Angle, b: Angle)
    requires c != t
    ensures Same([U1(t, a)] + ZZGates(c, t, b), ZZGates(c, t, b) + [U1(t, a)])
  {
    var u, zz, other := U1(t, a), ZZGates(c, t, b), ZZGates(t, c, b);
    ZZEitherWay(c, t, b);
    TurnOnControl(t, c, a);
    OnesCommute(u, U1(c, b));
    GatePassesBlock(Pull, u, other);
    Rewrite(Pull, [u] + zz, [u] + other, [u], zz, other, []);
    Rewrite(Pull, other + [u], zz + [u], [], other, zz, [u]);
  }

  lemma CNOTTwice(c: nat, t: nat)
    requires c != t
    ensures Same([CNOT(c, t), CNOT(c, t)], [])
  {
    GateInverts(CNOT(c, t));
  }

  lemma ZZTwice(c: nat, t: nat, a: Angle)
    requires c != t
    ensures Same(ZZGates(c, t, a) + ZZGates(c, t, a), ZZGates(c, t, a.Plus(a)))
  {
    var x, u := CNOT(c, t), U1(t, a);
    assert Turned(u, a) == u;
    CNOTTwice(c, t);
    TurnsAdd(u, a, a);
    Rewrite(Pull, ZZGates(c, t, a) + ZZGates(c, t, a), [x, u, u, x], [x, u], [x, x], [], [u, x]);
    Rewrite(Pull, [x, u, u, x], ZZGates(c, t, a.Plus(a)), [x], [u, u], [U1(t, a.Plus(a))], [x]);
  }

  // ---------------------------------------------------------------- a controlled turn about Z, twice

  /** A turn by the given angle on the target, taken back when the control is on: twice the angle in the two cases apart. */
  function Split(c: nat, t: nat, a: Angle): seq<Gate> {
    [U1(t, a)] + ZZGates(c, t, a.Minus())
  }

  lemma CRZSplits(c: nat, t: nat, a: Angle)
    requires c != t
    ensures Same(CRZGates(c, t, a), Split(c, t, a.Plus(a)))
  {
    var u, zz := U1(t, a), ZZGates(c, t, a.Plus(a).Minus());
    assert Turned(u, a) == u;
    TurnPastZZ(c, t, a, a.Plus(a).Minus());
    TurnsAdd(u, a, a);
    Rewrite(Pull, [u] + zz + [u], [u, u] + zz, [u], zz + [u], [u] + zz, []);
    Rewrite(Pull, [u, u] + zz, [U1(t, a.Plus(a))] + zz, [], [u, u], [U1(t, a.Plus(a))], zz);
  }

  lemma SplitTwice(c: nat, t: nat, a: Angle)
    requires c != t
    ensures Same(Split(c, t, a) + Split(c, t, a), Split(c, t, a.Plus(a)))
  {
    var u, zz, v := U1(t, a), ZZGates(c, t, a.Minus()), U1(t, a.Plus(a));
    assert Turned(u, a) == u;
    MinusTwice(a);
    TurnPastZZ(c, t, a, a.Minus());
    TurnsAdd(u, a, a);
    ZZTwice(c, t, a.Minus());
    var x0, x1, x2 := Split(c, t, a) + Split(c, t, a), [u, u] + zz + zz, [v] + zz + zz;
    Rewrite(Pull, x0, x1, [u], zz + [u], [u] + zz, zz);
    Rewrite(Pull, x1, x2, [], [u, u], [v], zz + zz);
    Rewrite(Pull, x2, Split(c, t, a.Plus(a)), [v], zz + zz, ZZGates(c, t, a.Plus(a).Minus()), []);
  }

  lemma SplitByNothing(c: nat, t: nat)
    requires c != t
    ensures Same(Split(c, t, NO_TURN), [])
  {
    var x, u := CNOT(c, t), U1(t, NO_TURN);
    assert Turned(u, NO_TURN) == u && NO_TURN.Minus() == NO_TURN;
    NoTurn(u);
    CNOTTwice(c, t);
    Rewrite(Pull, Split(c, t, NO_TURN), [x, u, x], [], [u], [], [x, u, x]);
    Rewrite(Pull, [x, u, x], [x, x], [x], [u], [], [x]);
  }

  /** Seen through X on the control: what is left of it is the cosine of the angle. */
  lemma SplitSeen(c: nat, t: nat, a: Angle, f: Pauli -> real, p: Pauli)
    requires c != t && p == Pauli({c}, {}) && forall q :: f(q) == if q == p then 1.0 else 0.0
    ensures Expect(Pull, Split(c, t, a), f, p) == a.cos
  {
    var u, zz, before := U1(t, a), ZZGates(c, t, a.Minus()), After(Pull, [U1(t, a)], f);
    var k, l := Letter(true, false), Letter(false, false);
    var mixed := PutTwo(p, c, Shift(k), t, Shift(l));
    ExpectConcat(Pull, [u], zz, f, p);
    ZZOnString(c, t, a.Minus(), before, p, k, l);
    PutTwoFacts(p, c, t, Shift(k), Shift(l), k, l);
    TurnSpares(t, a, f, p);
    TurnSpares(t, a, f, mixed);
  }

  lemma TurnSpares(t: nat, a: Angle, f: Pauli -> real, p: Pauli)
    requires t !in p.xs
    ensures Expect(Pull, [U1(t, a)], f, p) == f(p)
  {
    ExpectOne(Pull, U1(t, a), f, p);
    PutPut(p, t, At(p, t), At(p, t));
  }

  lemma ZeroProduct(x: real, y: real)
    requires x * y == 0.0
    ensures x == 0.0 || y == 0.0
  {}

  lemma CosineOne(a: Angle)
    requires a.Proper() && a.cos == 1.0
    ensures a == NO_TURN
  {
    ZeroProduct(a.sin, a.sin);
  }

  function Indicator(p: Pauli): Pauli -> real {
    (q: Pauli) => if q == p then 1.0 else 0.0
  }

  lemma SameSeen(a: seq<Gate>, b: seq<Gate>, f: Pauli -> real, p: Pauli)
    requires Same(a, b)
    ensures Expect(Pull, a, f, p) == Expect(Pull, b, f, p)
  {}

  /** It is no gate at all exactly when its angle is no turn. */
  lemma SplitExact(c: nat, t: nat, a: Angle)
    requires c != t && a.Proper()
    ensures Same(Split(c, t, a), []) <==> a == NO_TURN
  {
    var p := Pauli({c}, {});
    if a == NO_TURN { SplitByNothing(c, t); }
    if Same(Split(c, t, a), []) {
      SplitSeen(c, t, a, Indicator(p), p);
      SameSeen(Split(c, t, a), [], Indicator(p), p);
      CosineOne(a);
    }
  }

  // ---------------------------------------------------------------- half a turn is CZ

  /** A letter after a quarter turn about Z, and whether it comes with a minus. */
  function QuarterLetter(l: Letter): Letter {
    if l.x then Shift(l) else l
  }

  lemma QuarterTurnAt(c: nat, t: nat, f: Letters -> real, k: Letter, l: Letter)
    requires c != t
    ensures Expect(PullOn(c, t), [U1(t, QUARTER_TURN)], f, (k, l)) == Along(l.x && !l.z, f((k, QuarterLetter(l))))
    ensures Expect(PullOn(c, t), [U1(c, QUARTER_TURN)], f, (k, l)) == Along(k.x && !k.z, f((QuarterLetter(k), l)))
  {
    ExpectOne(PullOn(c, t), U1(t, QUARTER_TURN), f, (k, l));
    ExpectOne(PullOn(c, t), U1(c, QUARTER_TURN), f, (k, l));
  }

  lemma QuarterZZAt(c: nat, t: nat, f: Letters -> real, k: Letter, l: Letter)
    requires c != t
    ensures Expect(PullOn(c, t), ZZGates(c, t, QUARTER_TURN.Minus()), f, (k, l))
         == if k.x == l.x then f((k, l)) else Along(!Minus(k, l), f((Shift(k), Shift(l))))
  {
    ZZPlaced(c, t, QUARTER_TURN.Minus(), f, k, l);
  }

  predicate QuarterMinus(k: Letter, l: Letter) {
    (k.x && !k.z) != (l.x && !l.z)
  }

  lemma BothQuarters(c: nat, t: nat, f: Letters -> real, k: Letter, l: Letter)
    requires c != t
    ensures Expect(PullOn(c, t), [U1(c, QUARTER_TURN)] + [U1(t, QUARTER_TURN)], f, (k, l))
         == Along(QuarterMinus(k, l), f((QuarterLetter(k), QuarterLetter(l))))
  {
    ExpectConcat(PullOn(c, t), [U1(c, QUARTER_TURN)], [U1(t, QUARTER_TURN)], f, (k, l));
    QuarterTurnAt(c, t, After(PullOn(c, t), [U1(c, QUARTER_TURN)], f), k, l);
    QuarterTurnAt(c, t, f, k, QuarterLetter(l));
  }

  lemma CZOnLetters(c: nat, t: nat, f: Letters -> real, k: Letter, l: Letter)
    requires c != t
    ensures var d := PullPair(CZ(c, t), k, l); Expect(PullOn(c, t), [CZ(c, t)], f, (k, l)) == Along(d.0, f((d.1, d.2)))
  {
    ExpectOne(PullOn(c, t), CZ(c, t), f, (k, l));
  }

  lemma QuarterLetters(c: nat, t: nat, k: Letter, l: Letter)
    ensures var d := PullPair(CZ(c, t), k, l);
            if k.x == l.x then d == (QuarterMinus(k, l), QuarterLetter(k), QuarterLetter(l))
            else d == (QuarterMinus(Shift(k), Shift(l)) == Minus(k, l), QuarterLetter(Shift(k)), QuarterLetter(Shift(l)))
  {}

  lemma QuartersOnLetters(c: nat, t: nat, f: Letters -> real, k: Letter, l: Letter)
    requires c != t
    ensures Expect(PullOn(c, t), [U1(c, QUARTER_TURN)] + Split(c, t, QUARTER_TURN), f, (k, l)) == Expect(PullOn(c, t), [CZ(c, t)], f, (k, l))
  {
    var turns, zz := [U1(c, QUARTER_TURN)] + [U1(t, QUARTER_TURN)], ZZGates(c, t, QUARTER_TURN.Minus());
    assert [U1(c, QUARTER_TURN)] + Split(c, t, QUARTER_TURN) == turns + zz;
    ExpectConcat(PullOn(c, t), turns, zz, f, (k, l));
    QuarterZZAt(c, t, After(PullOn(c, t), turns, f), k, l);
    QuarterLetters(c, t, k, l);
    CZOnLetters(c, t, f, k, l);
    if k.x == l.x {
      BothQuarters(c, t, f, k, l);
    } else {
      BothQuarters(c, t, f, Shift(k), Shift(l));
    }
  }

  /** A controlled turn about Z is a controlled phase up to a phase on the control: by half a turn it is CZ. */
  lemma QuartersAreCZ(c: nat, t: nat)
    requires c != t
    ensures Same([U1(c, QUARTER_TURN)] + Split(c, t, QUARTER_TURN), [CZ(c, t)])
  {
    forall f: Letters -> real, kl: Letters
      ensures Expect(PullOn(c, t), [U1(c, QUARTER_TURN)] + Split(c, t, QUARTER_TURN), f, kl)
           == Expect(PullOn(c, t), [CZ(c, t)], f, kl)
    {
      QuartersOnLetters(c, t, f, kl.0, kl.1);
    }
    TwoQubitRule([U1(c, QUARTER_TURN)] + Split(c, t, QUARTER_TURN), [CZ(c, t)], c, t);
  }

  lemma HalfTurnIsCZ(c: nat, t: nat, a: Angle)
    requires c != t && a.Plus(a) == QUARTER_TURN
    ensures Same([U1(c, QUARTER_TURN)] + CRZGates(c, t, a), [CZ(c, t)]) && Same(CPhaseGates(c, t, a), [CZ(c, t)])
  {
    var u, v, crz := U1(c, a), U1(c, QUARTER_TURN), CRZGates(c, t, a);
    CRZSplits(c, t, a);
    QuartersAreCZ(c, t);
    Rewrite(Pull, [v] + crz, [v] + Split(c, t, QUARTER_TURN), [v], crz, Split(c, t, QUARTER_TURN), []);
    AlikeTrans(Pull, [v] + crz, [v] + Split(c, t, QUARTER_TURN), [CZ(c, t)]);
    TurnPastCRZ(c, t, a);
    assert Turned(u, a) == u && Turned(u, a.Plus(a)) == v;
    TurnsAdd(u, a, a);
    assert CPhaseGates(c, t, a) == [u] + crz + [u];
    Rewrite(Pull, CPhaseGates(c, t, a), [u, u] + crz, [u], crz + [u], [u] + crz, []);
    Rewrite(Pull, [u, u] + crz, [v] + crz, [], [u, u], [v], crz);
    AlikeTrans(Pull, CPhaseGates(c, t, a), [u, u] + crz, [v] + crz);
    AlikeTrans(Pull, CPhaseGates(c, t, a), [v] + crz, [CZ(c, t)]);
  }

  lemma TurnPastCRZ(c: nat, t: nat, a: Angle)
    requires c != t
    ensures Same(CRZGates(c, t, a) + [U1(c, a)], [U1(c, a)] + CRZGates(c, t, a))
  {
    var u, w, b := U1(c, a), U1(t, a), a.Plus(a).Minus();
    var zz, back := ZZGates(c, t, b), ZZGates(t, c, b);
    OnesCommute(u, w);
    OnesCommute(w, u);
    ZZEitherWay(c, t, b);
    TurnPastZZ(t, c, a, b);
    Rewrite(Pull, zz + [u], back + [u], [], zz, back, [u]);
    Rewrite(Pull, back + [u], [u] + back, [], back + [u], [u] + back, []);
    Rewrite(Pull, [u] + back, [u] + zz, [u], back, zz, []);
    AlikeTrans(Pull, zz + [u], back + [u], [u] + back);
    AlikeTrans(Pull, zz + [u], [u] + back, [u] + zz);
    var x0, x1, x2, x3 := [w] + zz + [w] + [u], [w] + zz + [u, w], [w] + [u] + zz + [w], [u] + [w] + zz + [w];
    Rewrite(Pull, x0, x1, [w] + zz, [w, u], [u, w], []);
    Rewrite(Pull, x1, x2, [w], zz + [u], [u] + zz, [w]);
    Rewrite(Pull, x2, x3, [], [w, u], [u, w], zz + [w]);
    AlikeTrans(Pull, x0, x1, x2);
    AlikeTrans(Pull, x0, x2, x3);
    assert x0 == CRZGates(c, t, a) + [u] && x3 == [u] + CRZGates(c, t, a);
  }

  // ---------------------------------------------------------------- the controlled turns about X and Y

  function FourTimes(a: Angle): Angle {
    a.Plus(a).Plus(a.Plus(a))
  }

  /** A gate and its inverse around a part do not matter to whether the part is no gate at all. */
  lemma AroundExact(g: Gate, h: Gate, part: seq<Gate>)
    requires Same([g, h], []) && Same([h, g], [])
    ensures Same([g] + part + [h], []) <==> Same(part, [])
  {
    if Same(part, []) {
      Rewrite(Pull, [g] + part + [h], [g, h], [g], part, [], [h]);
      AlikeTrans(Pull, [g] + part + [h], [g, h], []);
    }
    if Same([g] + part + [h], []) {
      var x := [h] + ([g] + part + [h]) + [g];
      Rewrite(Pull, x, [h, g], [h], [g] + part + [h], [], [g]);
      Rewrite(Pull, x, part + [h, g], [], [h, g], [], part + [h, g]);
      Rewrite(Pull, part + [h, g], part, part, [h, g], [], []);
    }
  }

  lemma TwiceAround(g: Gate, h: Gate, body: seq<Gate>, s: seq<Gate>)
    requires Same([h, g], []) && Same(body, s)
    ensures var m := [g] + body + [h]; Same(m + m, [g] + (s + s) + [h])
  {
    var m, x, y := [g] + body + [h], [g] + body + body + [h], [g] + s + body + [h];
    Rewrite(Pull, m + m, x, [g] + body, [h, g], [], body + [h]);
    Rewrite(Pull, x, y, [g], body, s, body + [h]);
    Rewrite(Pull, y, [g] + (s + s) + [h], [g] + s, body, s, [h]);
    AlikeTrans(Pull, m + m, x, y);
    AlikeTrans(Pull, m + m, y, [g] + (s + s) + [h]);
  }

  lemma BodyTwice(g: Gate, h: Gate, c: nat, t: nat, a: Angle)
    requires c != t && a.Proper() && Same([g, h], []) && Same([h, g], [])
    ensures var m := [g] + CRZGates(c, t, a) + [h]; Same(m + m, []) <==> FourTimes(a) == NO_TURN
  {
    var m, s, all := [g] + CRZGates(c, t, a) + [h], Split(c, t, a.Plus(a)), Split(c, t, FourTimes(a));
    CRZSplits(c, t, a);
    SplitTwice(c, t, a.Plus(a));
    TwiceAround(g, h, CRZGates(c, t, a), s);
    Rewrite(Pull, [g] + (s + s) + [h], [g] + all + [h], [g], s + s, all, [h]);
    AlikeTrans(Pull, m + m, [g] + (s + s) + [h], [g] + all + [h]);
    TurnProper(a, a);
    TurnProper(a.Plus(a), a.Plus(a));
    SplitExact(c, t, FourTimes(a));
    AroundExact(g, h, all);
  }

  /**
   * Twice a controlled turn about X or Y is no gate at all, up to a global phase, exactly when its angle, four
   * times the one given, is a multiple of a full turn.
   */
  lemma KeptTwice(kind: Kind, qubits: seq<nat>, a: Angle)
    requires !Listed(kind) && Shaped(kind, qubits, [a]) && qubits[0] != qubits[1] && a.Proper()
    ensures Same(TurnGates(kind, qubits, [a]) + TurnGates(kind, qubits, [a]), []) <==> FourTimes(a) == NO_TURN
  {
    var c, t := qubits[0], qubits[1];
    var x, y, back := Rx(t, QUARTER_TURN), Ry(t, QUARTER_TURN), QUARTER_TURN.Minus();
    TurnBack(x, QUARTER_TURN);
    TurnBack(y, QUARTER_TURN);
    assert Turned(x, QUARTER_TURN) == x && Turned(x, back) == Rx(t, back);
    assert Turned(y, QUARTER_TURN) == y && Turned(y, back) == Ry(t, back);
    if kind.CRX? {
      BodyTwice(Ry(t, back), y, c, t, a);
    } else {
      BodyTwice(x, Rx(t, back), c, t, a);
    }
  }
}
