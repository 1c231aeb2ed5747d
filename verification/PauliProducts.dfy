/**
 * Conjugation by a gate respects products of Pauli strings, so the images of X and Z decide all
 * others. The lemmas here justify the tables by which gates pull letters back: a table that gave a
 * wrong sign to one of its entries would break a product with two others. The turns are not included.
 */
module PauliProducts {
  import opened PauliPicture

  function Times(k: Letter, l: Letter): Letter {
    Letter(k.x != l.x, k.z != l.z)
  }

  /** k and l anticommute; then k * l is i or -i times Times(k, l). */
  predicate Clash(k: Letter, l: Letter) {
    (k.x && l.z) != (k.z && l.x)
  }

  /** k * l is -i times Times(k, l): the pairs XZ, YX and ZY. */
  predicate Negative(k: Letter, l: Letter) {
    if k.x then (if k.z then l.x && !l.z else !l.x && l.z) else k.z && l.x && l.z
  }

  /** The sign of the product of two strings on two qubits, up to one factor i if they anticommute. */
  predicate NegativePair(k: Letter, k': Letter, l: Letter, l': Letter) {
    (Negative(k, k') != Negative(l, l')) != (Clash(k, k') && Clash(l, l'))
  }

  type Image = (bool, Letter, Letter)

  /** The product of the images a and b is the image c of the product. */
  predicate Respects(a: Image, b: Image, c: Image, k: Letter, l: Letter, k': Letter, l': Letter) {
    && c.1 == Times(a.1, b.1) && c.2 == Times(a.2, b.2)
    && ((a.0 != b.0) != NegativePair(a.1, b.1, a.2, b.2)) == (c.0 != NegativePair(k, k', l, l'))
  }

  lemma CNOTRespects(c: nat, t: nat, k: Letter, l: Letter, k': Letter, l': Letter)
    ensures var g := CNOT(c, t);
            Respects(PullPair(g, k, l), PullPair(g, k', l'), PullPair(g, Times(k, k'), Times(l, l')), k, l, k', l')
  {}

  lemma CYRespects(c: nat, t: nat, k: Letter, l: Letter, k': Letter, l': Letter)
    ensures var g := CY(c, t);
            Respects(PullPair(g, k, l), PullPair(g, k', l'), PullPair(g, Times(k, k'), Times(l, l')), k, l, k', l')
  {}

  lemma CZRespects(c: nat, t: nat, k: Letter, l: Letter, k': Letter, l': Letter)
    ensures var g := CZ(c, t);
            Respects(PullPair(g, k, l), PullPair(g, k', l'), PullPair(g, Times(k, k'), Times(l, l')), k, l, k', l')
  {}

  /** Every two-qubit gate pulls products back to products. */
  lemma PairRespectsProducts(g: Gate, k: Letter, l: Letter, k': Letter, l': Letter)
    requires OnTwo(g)
    ensures Respects(PullPair(g, k, l), PullPair(g, k', l'), PullPair(g, Times(k, k'), Times(l, l')), k, l, k', l')
  {
    match g
    case CNOT(c, t) => CNOTRespects(c, t, k, l, k', l');
    case CY(c, t) => CYRespects(c, t, k, l, k', l');
    case CZ(c, t) => CZRespects(c, t, k, l, k', l');
    case Swap(_, _) =>
  }

  /** So do the one-qubit gates that are not turns. */
  lemma LetterRespectsProducts(g: Gate, k: Letter, l: Letter)
    requires g.H? || g.X? || g.Y? || g.Z?
    ensures var a, b, c := PullLetter(g, k), PullLetter(g, l), PullLetter(g, Times(k, l));
            && c.p == Times(a.p, b.p) && Clash(a.p, b.p) == Clash(k, l)
            && ((a.a != b.a) != Negative(a.p, b.p)) == ((c.a == -1.0) != Negative(k, l))
  {}
}
