/**
 * The universal gate set in the Heisenberg picture: a gate U pulls the Pauli string P back to
 * U^-1 P U. Circuits that act alike on all expectations of Pauli strings are the same unitary up to
 * a global phase. A string is given by the qubits on which it has an X part and a Z part.
 */
module PauliPicture {
  import opened Observables

  /** I, X, Y and Z are (false, false), (true, false), (true, true) and (false, true). */
  datatype Letter = Letter(x: bool, z: bool)

  /** A Pauli string, by the qubits on which it has an X part and those on which it has a Z part. */
  datatype Pauli = Pauli(xs: set<nat>, zs: set<nat>)

  function Member(s: set<nat>, q: nat, v: bool): set<nat> {
    if v then s + {q} else s - {q}
  }

  function At(p: Pauli, q: nat): Letter {
    Letter(q in p.xs, q in p.zs)
  }

  function Put(p: Pauli, q: nat, l: Letter): Pauli {
    Pauli(Member(p.xs, q, l.x), Member(p.zs, q, l.z))
  }

  function PutTwo(p: Pauli, c: nat, k: Letter, t: nat, l: Letter): Pauli {
    Put(Put(p, c, k), t, l)
  }

  /** A rotation angle, by its cosine and sine; adding angles multiplies cos + i sin. */
  datatype Angle = Angle(cos: real, sin: real) {
    function Plus(other: Angle): Angle {
      Angle(cos * other.cos - sin * other.sin, cos * other.sin + sin * other.cos)
    }

    function Minus(): Angle {
      Angle(cos, -sin)
    }

    predicate Proper() {
      cos * cos + sin * sin == 1.0
    }
  }

  const NO_TURN := Angle(1.0, 0.0)
  const QUARTER_TURN := Angle(0.0, 1.0)

  datatype Gate =
    | H(q: nat)
    | X(q: nat)
    | Y(q: nat)
    | Z(q: nat)
    | Rx(q: nat, angle: Angle)
    | Ry(q: nat, angle: Angle)
    | U1(q: nat, angle: Angle)
    | CNOT(c: nat, t: nat)
    | CY(c: nat, t: nat)
    | CZ(c: nat, t: nat)
    | Swap(c: nat, t: nat)

  predicate OnTwo(g: Gate) {
    g.CNOT? || g.CY? || g.CZ? || g.Swap?
  }

  function Support(g: Gate): set<nat> {
    if OnTwo(g) then {g.c, g.t} else {g.q}
  }

  predicate Proper(g: Gate) {
    match g
    case Rx(q, angle) => angle.Proper()
    case Ry(q, angle) => angle.Proper()
    case U1(q, angle) => angle.Proper()
    case _ => OnTwo(g) ==> g.c != g.t
  }

  function Sign(negative: bool): real {
    if negative then -1.0 else 1.0
  }

  function Signed(negative: bool, l: Letter): Pulled<Letter> {
    Pulled(Sign(negative), l, 0.0, l)
  }

  /** What a one-qubit gate pulls the letter on its qubit back to. */
  function PullLetter(g: Gate, l: Letter): Pulled<Letter>
    requires !OnTwo(g)
  {
    match g
    case H(_) => Signed(l.x && l.z, Letter(l.z, l.x))
    case X(_) => Signed(l.z, l)
    case Y(_) => Signed(l.x != l.z, l)
    case Z(_) => Signed(l.x, l)
    case Rx(_, a) =>
      if l.z then Pulled(a.cos, l, if l.x then -a.sin else a.sin, Letter(!l.x, true)) else Signed(false, l)
    case Ry(_, a) =>
      if l.x != l.z then Pulled(a.cos, l, if l.x then a.sin else -a.sin, Letter(l.z, l.x)) else Signed(false, l)
    case U1(_, a) =>
      if l.x then Pulled(a.cos, l, if l.z then a.sin else -a.sin, Letter(true, !l.z)) else Signed(false, l)
  }

  /** The sign and the letters on control and target that a two-qubit gate pulls k and l back to. */
  function PullPair(g: Gate, k: Letter, l: Letter): (bool, Letter, Letter)
    requires OnTwo(g)
  {
    match g
    case CNOT(_, _) => (k.x && l.z && l.x == k.z, Letter(k.x, k.z != l.z), Letter(l.x != k.x, l.z))
    case CY(_, _) =>
      (k.x && l.x != l.z && l.z == k.z, Letter(k.x, k.z != (l.x != l.z)), Letter(l.x != k.x, l.z != k.x))
    case CZ(_, _) => (k.x && l.x && k.z != l.z, Letter(k.x, k.z != l.x), Letter(l.x, l.z != k.x))
    case Swap(_, _) => (false, l, k)
  }

  /** U^-1 P U for a gate U. */
  function Pull(g: Gate, p: Pauli): Pulled<Pauli> {
    if OnTwo(g) then
      SpreadTwo(p, g.c, g.t, PullPair(g, At(p, g.c), At(p, g.t)))
    else
      Spread(p, g.q, PullLetter(g, At(p, g.q)))
  }

  function Spread(p: Pauli, q: nat, d: Pulled<Letter>): Pulled<Pauli> {
    Pulled(d.a, Put(p, q, d.p), d.b, Put(p, q, d.q))
  }

  function SpreadTwo(p: Pauli, c: nat, t: nat, d: (bool, Letter, Letter)): Pulled<Pauli> {
    Pulled(Sign(d.0), PutTwo(p, c, d.1, t, d.2), 0.0, PutTwo(p, c, d.1, t, d.2))
  }

  ghost predicate Same(a: seq<Gate>, b: seq<Gate>) {
    Alike(Pull, a, b)
  }

  // ---------------------------------------------------------------- letters

  lemma PutPut(p: Pauli, q: nat, l: Letter, k: Letter)
    ensures Put(Put(p, q, l), q, k) == Put(p, q, k) && Put(p, q, At(p, q)) == p
  {}

  lemma PutCommute(p: Pauli, q: nat, l: Letter, r: nat, k: Letter)
    requires q != r
    ensures Put(Put(p, q, l), r, k) == Put(Put(p, r, k), q, l)
  {}

  lemma PutElsewhere(p: Pauli, q: nat, r: nat)
    requires q != r
    ensures forall l :: At(Put(p, q, l), r) == At(p, r) && At(Put(p, r, l), q) == At(p, q)
  {}

  lemma PutPastTwo(p: Pauli, q: nat, m: Letter, c: nat, k: Letter, t: nat, l: Letter)
    requires q != c && q != t
    ensures PutTwo(Put(p, q, m), c, k, t, l) == Put(PutTwo(p, c, k, t, l), q, m)
  {
    PutCommute(p, q, m, c, k);
    PutCommute(Put(p, c, k), q, m, t, l);
  }

  // ---------------------------------------------------------------- commuting on different qubits

  /** What a gate does depends on, and affects, the letter on its qubit only. */
  ghost predicate ActsOn<G(!new)>(pull: (G, Pauli) -> Pulled<Pauli>, g: G, q: nat, letter: Letter -> Pulled<Letter>) {
    forall p :: pull(g, p) == Spread(p, q, letter(At(p, q)))
  }

  ghost predicate ActsOnTwo<G(!new)>(pull: (G, Pauli) -> Pulled<Pauli>, g: G, c: nat, t: nat,
                                     pair: (Letter, Letter) -> (bool, Letter, Letter)) {
    forall p :: pull(g, p) == SpreadTwo(p, c, t, pair(At(p, c), At(p, t)))
  }

  lemma LocalCommute<G(!new)>(pull: (G, Pauli) -> Pulled<Pauli>, g: G, q: nat, onG: Letter -> Pulled<Letter>,
                              h: G, r: nat, onH: Letter -> Pulled<Letter>)
    requires ActsOn(pull, g, q, onG) && ActsOn(pull, h, r, onH) && q != r
    ensures Commute(pull, g, h)
  {
    forall f: Pauli -> real, p: Pauli
      ensures Expect(pull, [g, h], f, p) == Expect(pull, [h, g], f, p)
    {
      var d, e := onH(At(p, r)), onG(At(p, q));
      PutCommute(p, r, d.p, q, e.p);
      PutCommute(p, r, d.p, q, e.q);
      PutCommute(p, r, d.q, q, e.p);
      PutCommute(p, r, d.q, q, e.q);
      PutElsewhere(p, q, r);
      Diamond(pull, g, h, f, p, d.a, d.b, e.a, e.b, Put(Put(p, r, d.p), q, e.p), Put(Put(p, r, d.p), q, e.q),
              Put(Put(p, r, d.q), q, e.p), Put(Put(p, r, d.q), q, e.q));
    }
  }

  lemma LocalCommuteTwo<G(!new)>(pull: (G, Pauli) -> Pulled<Pauli>, g: G, q: nat, onG: Letter -> Pulled<Letter>,
                                 h: G, c: nat, t: nat, onH: (Letter, Letter) -> (bool, Letter, Letter))
    requires ActsOn(pull, g, q, onG) && ActsOnTwo(pull, h, c, t, onH) && q != c && q != t
    ensures Commute(pull, g, h) && Commute(pull, h, g)
  {
    forall f: Pauli -> real, p: Pauli
      ensures Expect(pull, [g, h], f, p) == Expect(pull, [h, g], f, p)
    {
      var d, e := onH(At(p, c), At(p, t)), onG(At(p, q));
      PutPastTwo(p, q, e.p, c, d.1, t, d.2);
      PutPastTwo(p, q, e.q, c, d.1, t, d.2);
      PutElsewhere(p, q, c);
      PutElsewhere(p, q, t);
      var r := PutTwo(p, c, d.1, t, d.2);
      assert pull(h, p) == Pulled(Sign(d.0), r, 0.0, r);
      Diamond(pull, g, h, f, p, Sign(d.0), 0.0, e.a, e.b, Put(r, q, e.p), Put(r, q, e.q), Put(r, q, e.p), Put(r, q, e.q));
    }
  }

  lemma OnesCommute(g: Gate, h: Gate)
    requires !OnTwo(g) && !OnTwo(h) && g.q != h.q
    ensures Commute(Pull, g, h)
  {
    LocalCommute(Pull, g, g.q, l => PullLetter(g, l), h, h.q, l => PullLetter(h, l));
  }

  lemma OneAndTwoCommute(g: Gate, h: Gate)
    requires !OnTwo(g) && OnTwo(h) && g.q !in Support(h)
    ensures Commute(Pull, g, h) && Commute(Pull, h, g)
  {
    LocalCommuteTwo(Pull, g, g.q, l => PullLetter(g, l), h, h.c, h.t, (k, l) => PullPair(h, k, l));
  }

  // ---------------------------------------------------------------- circuits on one and on two qubits

  predicate AllOn(gs: seq<Gate>, q: nat) {
    forall g :: g in gs ==> !OnTwo(g) && g.q == q
  }

  function LetterPull(g: Gate, l: Letter): Pulled<Letter> {
    if OnTwo(g) then Signed(false, l) else PullLetter(g, l)
  }

  function Placed(p: Pauli, q: nat): Letter -> Pauli {
    (l: Letter) => Put(p, q, l)
  }

  /** A circuit on a single qubit only sees the letter there. */
  lemma Localize(gs: seq<Gate>, q: nat, f: Pauli -> real, p: Pauli)
    requires AllOn(gs, q)
    ensures Expect(Pull, gs, f, p) == Expect(LetterPull, gs, Restrict(f, Placed(p, q)), At(p, q))
  {
    forall g, l | g in gs
      ensures Pull(g, Placed(p, q)(l)) == Image(Placed(p, q), LetterPull(g, l))
    {
      var d := PullLetter(g, l);
      PutPut(p, q, l, d.p);
      PutPut(p, q, l, d.q);
    }
    PutPut(p, q, At(p, q), At(p, q));
    ExpectEmbedded(Pull, LetterPull, Placed(p, q), gs, f, At(p, q));
  }

  lemma OneQubitRule(gs: seq<Gate>, hs: seq<Gate>, q: nat)
    requires AllOn(gs, q) && AllOn(hs, q) && Alike(LetterPull, gs, hs)
    ensures Same(gs, hs)
  {
    forall f: Pauli -> real, p: Pauli
      ensures Expect(Pull, gs, f, p) == Expect(Pull, hs, f, p)
    {
      Localize(gs, q, f, p);
      Localize(hs, q, f, p);
    }
  }

  type Letters = (Letter, Letter)

  predicate AllWithin(gs: seq<Gate>, c: nat, t: nat) {
    forall g :: g in gs ==> if OnTwo(g) then (g.c == c && g.t == t) || (g.c == t && g.t == c) else g.q == c || g.q == t
  }

  /** Pull on the letters of qubits c and t, for gates on these two. */
  function LettersPull(c: nat, t: nat, g: Gate, kl: Letters): Pulled<Letters> {
    if OnTwo(g) then
      var forwards := g.c == c;
      var d := if forwards then PullPair(g, kl.0, kl.1) else PullPair(g, kl.1, kl.0);
      var r := if forwards then (d.1, d.2) else (d.2, d.1);
      Pulled(Sign(d.0), r, 0.0, r)
    else if g.q == c then
      var d := PullLetter(g, kl.0);
      Pulled(d.a, (d.p, kl.1), d.b, (d.q, kl.1))
    else
      var d := PullLetter(g, kl.1);
      Pulled(d.a, (kl.0, d.p), d.b, (kl.0, d.q))
  }

  function PullOn(c: nat, t: nat): (Gate, Letters) -> Pulled<Letters> {
    (g: Gate, kl: Letters) => LettersPull(c, t, g, kl)
  }

  function PlacedTwo(p: Pauli, c: nat, t: nat): Letters -> Pauli {
    (kl: Letters) => PutTwo(p, c, kl.0, t, kl.1)
  }

  lemma PutTwoFacts(p: Pauli, c: nat, t: nat, k: Letter, l: Letter, k': Letter, l': Letter)
    requires c != t
    ensures var r := PutTwo(p, c, k, t, l);
            && At(r, c) == k && At(r, t) == l
            && Put(r, c, k') == PutTwo(p, c, k', t, l) && Put(r, t, l') == PutTwo(p, c, k, t, l')
            && PutTwo(r, c, k', t, l') == PutTwo(p, c, k', t, l') && PutTwo(r, t, l', c, k') == PutTwo(p, c, k', t, l')
  {
    PutCommute(Put(p, c, k), t, l, c, k');
    PutCommute(PutTwo(p, c, k, t, l), t, l', c, k');
  }

  lemma LocalizeTwo(gs: seq<Gate>, c: nat, t: nat, f: Pauli -> real, p: Pauli)
    requires AllWithin(gs, c, t) && c != t
    ensures Expect(Pull, gs, f, p) == Expect(PullOn(c, t), gs, Restrict(f, PlacedTwo(p, c, t)), (At(p, c), At(p, t)))
  {
    forall g, kl: Letters | g in gs
      ensures Pull(g, PlacedTwo(p, c, t)(kl)) == Image(PlacedTwo(p, c, t), PullOn(c, t)(g, kl))
    {
      var d := LettersPull(c, t, g, kl);
      PutTwoFacts(p, c, t, kl.0, kl.1, d.p.0, d.p.1);
      PutTwoFacts(p, c, t, kl.0, kl.1, d.q.0, d.q.1);
    }
    PutPut(p, c, At(p, c), At(p, c));
    PutPut(p, t, At(p, t), At(p, t));
    ExpectEmbedded(Pull, PullOn(c, t), PlacedTwo(p, c, t), gs, f, (At(p, c), At(p, t)));
  }

  lemma TwoQubitRule(gs: seq<Gate>, hs: seq<Gate>, c: nat, t: nat)
    requires AllWithin(gs, c, t) && AllWithin(hs, c, t) && c != t && Alike(PullOn(c, t), gs, hs)
    ensures Same(gs, hs)
  {
    forall f: Pauli -> real, p: Pauli
      ensures Expect(Pull, gs, f, p) == Expect(Pull, hs, f, p)
    {
      LocalizeTwo(gs, c, t, f, p);
      LocalizeTwo(hs, c, t, f, p);
    }
  }
}
