/** InverseCircuit on the universal gate set and iSwap. */
module UnitaryInverse {
  import opened Registers
  import opened Observables
  import opened PauliPicture
  import opened CommutationRules
  import opened PairTurns
  import opened KeptTurns
  import D = DeferralSteps
  import G = Gates

  /**
   * The leaf gates of a circuit. Refused stands for Reset, Measure, annealing instructions and ifstmt,
   * Unlisted for a gate that has no case of its own and no meaning here, such as CH.
   */
  datatype Leaf =
    | Unitary(op: D.Op)
    | ISwap(q0: nat, q1: nat)
    | Turn(kind: Kind, qubits: seq<nat>, angles: seq<Angle>)
    | Unlisted(name: string, qubits: seq<nat>, angles: seq<Angle>)
    | Refused

  /** iSwap as the usual product of S, H and CNOT gates. */
  function ISwapGates(q0: nat, q1: nat): seq<Gate> {
    [U1(q1, QUARTER_TURN), U1(q0, QUARTER_TURN), H(q0), CNOT(q0, q1), CNOT(q1, q0), H(q1)]
  }

  /** The leaves whose meaning is written down here. */
  predicate Known(leaf: Leaf) {
    match leaf
    case Unitary(_) => true
    case ISwap(_, _) => true
    case Turn(kind, qubits, angles) => Shaped(kind, qubits, angles)
    case _ => false
  }

  predicate AllKnown(leaves: seq<Leaf>) {
    forall leaf :: leaf in leaves ==> Known(leaf)
  }

  function MeaningOf(leaf: Leaf): seq<Gate>
    requires Known(leaf)
  {
    match leaf
    case Unitary(op) => D.Meaning(op)
    case ISwap(q0, q1) => ISwapGates(q0, q1)
    case Turn(kind, qubits, angles) => TurnGates(kind, qubits, angles)
  }

  function Meanings(leaves: seq<Leaf>): seq<Gate>
    requires AllKnown(leaves)
  {
    if leaves == [] then [] else MeaningOf(leaves[0]) + Meanings(leaves[1..])
  }

  function InverseOp(op: D.Op): D.Op {
    match op
    case S(q) => D.Op.Sdg(q)
    case Sdg(q) => D.Op.S(q)
    case T(q, eighth) => D.Op.Tdg(q, eighth)
    case Tdg(q, eighth) => D.Op.T(q, eighth)
    case Rx(q, a) => D.Op.Rx(q, a.Minus())
    case Ry(q, a) => D.Op.Ry(q, a.Minus())
    case Rz(q, a) => D.Op.Rz(q, a.Minus())
    case U(q, theta, phi, lambda) => D.Op.U(q, theta.Minus(), lambda.Minus(), phi.Minus())
    case _ => op
  }

  /** The CRX and CRY gates have no case of their own: they are left as they are. */
  function InverseLeaf(leaf: Leaf): seq<Leaf>
    requires !leaf.Refused?
  {
    match leaf
    case Unitary(op) => [Unitary(InverseOp(op))]
    case Turn(kind, qubits, angles) => if Listed(kind) then [Turn(kind, qubits, Negated(kind, angles))] else [leaf]
    case Unlisted(_, _, _) => [leaf]
    case ISwap(q0, q1) =>
      [Unitary(D.Op.H(q1)), Unitary(D.Op.CNOT(q1, q0)), Unitary(D.Op.CNOT(q0, q1)), Unitary(D.Op.H(q0)),
       Unitary(D.Op.Sdg(q0)), Unitary(D.Op.Sdg(q1))]
  }

  /** The inverses of the leaves, in reverse order. */
  function InverseLeaves(leaves: seq<Leaf>): (inverse: seq<Leaf>)
    requires Refused !in leaves
    ensures Refused !in inverse
  {
    if leaves == [] then [] else InverseLeaves(leaves[1..]) + InverseLeaf(leaves[0])
  }

  ghost predicate ProperLeaves(leaves: seq<Leaf>) {
    AllKnown(leaves) && forall g :: g in Meanings(leaves) ==> Proper(g)
  }

  lemma MeaningsCons(leaf: Leaf, rest: seq<Leaf>)
    requires Known(leaf) && AllKnown(rest)
    ensures AllKnown([leaf] + rest) && Meanings([leaf] + rest) == MeaningOf(leaf) + Meanings(rest)
  {
    assert ([leaf] + rest)[1..] == rest;
  }

  lemma KnownConcat(a: seq<Leaf>, b: seq<Leaf>)
    requires AllKnown(a) && AllKnown(b)
    ensures AllKnown(a + b)
  {}

  lemma {:induction false} MeaningsConcat(a: seq<Leaf>, b: seq<Leaf>)
    requires AllKnown(a) && AllKnown(b)
    ensures AllKnown(a + b) && Meanings(a + b) == Meanings(a) + Meanings(b)
  {
    KnownConcat(a, b);
    if a == [] {
      assert a + b == b;
    } else {
      assert (a + b)[1..] == a[1..] + b;
      MeaningsConcat(a[1..], b);
      G.AssociateThree(MeaningOf(a[0]), Meanings(a[1..]), Meanings(b));
    }
  }

  lemma {:induction false} InverseOpUndoes(op: D.Op)
    ensures D.Meaning(InverseOp(op)) == Undo(InverseOf, D.Meaning(op))
  {
    var gates := D.Meaning(op);
    if op.U? {
      assert gates[1..] == [Ry(op.q, op.theta), U1(op.q, op.phi)] && gates[1..][1..] == [U1(op.q, op.phi)];
      UndoOne(U1(op.q, op.phi));
    } else if gates != [] {
      UndoOne(gates[0]);
      assert gates == [gates[0]];
    }
  }

  lemma ThreeMeanings(a: Leaf, b: Leaf, c: Leaf, rest: seq<Leaf>)
    requires Known(a) && Known(b) && Known(c) && AllKnown(rest)
    ensures AllKnown([a, b, c] + rest)
    ensures Meanings([a, b, c] + rest) == MeaningOf(a) + (MeaningOf(b) + (MeaningOf(c) + Meanings(rest)))
  {
    MeaningsCons(c, rest);
    MeaningsCons(b, [c] + rest);
    MeaningsCons(a, [b] + ([c] + rest));
    assert [a] + ([b] + ([c] + rest)) == [a, b, c] + rest;
  }

  lemma SixMeanings(a: Leaf, b: Leaf, c: Leaf, d: Leaf, e: Leaf, f: Leaf)
    requires Known(a) && Known(b) && Known(c) && Known(d) && Known(e) && Known(f)
    ensures AllKnown([a, b, c, d, e, f])
    ensures Meanings([a, b, c, d, e, f])
         == MeaningOf(a) + (MeaningOf(b) + (MeaningOf(c) + (MeaningOf(d) + (MeaningOf(e) + MeaningOf(f)))))
  {
    ThreeMeanings(d, e, f, []);
    ThreeMeanings(a, b, c, [d, e, f]);
    assert [d, e, f] + [] == [d, e, f] && MeaningOf(f) + Meanings([]) == MeaningOf(f);
    assert [a, b, c] + [d, e, f] == [a, b, c, d, e, f];
  }

  lemma ThreeUndone(a: Gate, b: Gate, c: Gate)
    ensures Undo(InverseOf, [a, b, c]) == [InverseOf(c), InverseOf(b), InverseOf(a)]
  {
    assert [a, b, c] == [a, b] + [c];
    UndoConcat([a, b], [c]);
    UndoTwo(a, b);
    UndoOne(c);
  }

  lemma SixUndone(a: Gate, b: Gate, c: Gate, d: Gate, e: Gate, f: Gate)
    ensures Undo(InverseOf, [a, b, c, d, e, f])
         == [InverseOf(f), InverseOf(e), InverseOf(d), InverseOf(c), InverseOf(b), InverseOf(a)]
  {
    assert [a, b, c, d, e, f] == [a, b, c] + [d, e, f];
    UndoConcat([a, b, c], [d, e, f]);
    ThreeUndone(a, b, c);
    ThreeUndone(d, e, f);
  }

  lemma ISwapUndoes(q0: nat, q1: nat)
    ensures Meanings(InverseLeaf(ISwap(q0, q1))) == Undo(InverseOf, ISwapGates(q0, q1))
  {
    SixMeanings(Unitary(D.Op.H(q1)), Unitary(D.Op.CNOT(q1, q0)), Unitary(D.Op.CNOT(q0, q1)), Unitary(D.Op.H(q0)),
                Unitary(D.Op.Sdg(q0)), Unitary(D.Op.Sdg(q1)));
    SixUndone(U1(q1, QUARTER_TURN), U1(q0, QUARTER_TURN), H(q0), CNOT(q0, q1), CNOT(q1, q0), H(q1));
  }

  predicate Kept(leaf: Leaf) {
    leaf.Turn? && !Listed(leaf.kind)
  }

  lemma InverseLeafUndoes(leaf: Leaf)
    requires Known(leaf) && !Kept(leaf)
    ensures AllKnown(InverseLeaf(leaf)) && Meanings(InverseLeaf(leaf)) == Undo(InverseOf, MeaningOf(leaf))
  {
    match leaf
    case Unitary(op) =>
      InverseOpUndoes(op);
      assert InverseLeaf(leaf)[1..] == [];
    case ISwap(q0, q1) => ISwapUndoes(q0, q1);
    case Turn(kind, qubits, angles) =>
      TurnUndoes(kind, qubits, angles);
      OneMeaning(Turn(kind, qubits, Negated(kind, angles)));
  }

  lemma OneMeaning(leaf: Leaf)
    requires Known(leaf)
    ensures AllKnown([leaf]) && Meanings([leaf]) == MeaningOf(leaf)
  {
    assert [leaf][1..] == [] && Meanings([]) == [];
  }

  // ---------------------------------------------------------------- a circuit and its inverse

  ghost predicate ProperLeaf(leaf: Leaf) {
    Known(leaf) && ProperGates(MeaningOf(leaf))
  }

  /** A gate that is left as it is counts as inverted if its angle is a multiple of a full turn. */
  predicate Inverted(leaf: Leaf)
    requires Known(leaf)
  {
    Kept(leaf) ==> FourTimes(leaf.angles[0]) == NO_TURN
  }

  ghost predicate AllInverted(leaves: seq<Leaf>) {
    forall leaf :: leaf in leaves ==> ProperLeaf(leaf) && Inverted(leaf)
  }

  /** The gates of a kept leaf: two qubits, and a proper angle. */
  lemma KeptShape(leaf: Leaf)
    requires ProperLeaf(leaf) && Kept(leaf)
    ensures leaf.qubits[0] != leaf.qubits[1] && leaf.angles == [leaf.angles[0]] && leaf.angles[0].Proper()
    ensures InverseLeaf(leaf) == [leaf] && Known(InverseLeaf(leaf)[0])
  {
    var c, t, a, gates := leaf.qubits[0], leaf.qubits[1], leaf.angles[0], MeaningOf(leaf);
    assert gates[1] == U1(t, a) && gates[2] == CNOT(c, t);
    assert gates[1] in gates && gates[2] in gates;
  }

  lemma KeptExact(leaf: Leaf)
    requires ProperLeaf(leaf) && Kept(leaf)
    ensures AllKnown(InverseLeaf(leaf)) && Meanings(InverseLeaf(leaf)) == MeaningOf(leaf)
    ensures Same(MeaningOf(leaf) + MeaningOf(leaf), []) <==> Inverted(leaf)
  {
    KeptShape(leaf);
    OneMeaning(leaf);
    KeptTwice(leaf.kind, leaf.qubits, leaf.angles[0]);
  }

  lemma LeafCancels(leaf: Leaf)
    requires ProperLeaf(leaf) && Inverted(leaf)
    ensures AllKnown(InverseLeaf(leaf))
    ensures Same(Meanings(InverseLeaf(leaf)) + MeaningOf(leaf), []) && Same(MeaningOf(leaf) + Meanings(InverseLeaf(leaf)), [])
  {
    if Kept(leaf) {
      KeptExact(leaf);
    } else {
      InverseLeafUndoes(leaf);
      ProperInvertible(MeaningOf(leaf));
      Undoes(Pull, InverseOf, MeaningOf(leaf));
    }
  }

  lemma {:induction false} InverseKnown(leaves: seq<Leaf>)
    requires forall leaf :: leaf in leaves ==> ProperLeaf(leaf)
    ensures Refused !in leaves && AllKnown(leaves) && AllKnown(InverseLeaves(leaves))
  {
    if leaves != [] {
      assert leaves[0] in leaves;
      InverseKnown(leaves[1..]);
      if Kept(leaves[0]) {
        KeptExact(leaves[0]);
      } else {
        InverseLeafUndoes(leaves[0]);
      }
    }
  }

  /** Gates that cancel in the middle of gates that cancel. */
  lemma Nested(a: seq<Gate>, b: seq<Gate>, c: seq<Gate>, d: seq<Gate>)
    requires Same(b + c, []) && Same(a + d, [])
    ensures Same((a + b) + (c + d), [])
  {
    assert (a + b) + (c + d) == a + (b + c) + d;
    Rewrite(Pull, (a + b) + (c + d), a + d, a, b + c, [], d);
    AlikeTrans(Pull, (a + b) + (c + d), a + d, []);
  }

  /** A circuit and its inverse cancel, in both orders, up to a global phase. */
  lemma {:induction false} InverseCancels(leaves: seq<Leaf>)
    requires AllInverted(leaves)
    ensures Refused !in leaves && AllKnown(leaves) && AllKnown(InverseLeaves(leaves))
    ensures Same(Meanings(InverseLeaves(leaves)) + Meanings(leaves), [])
    ensures Same(Meanings(leaves) + Meanings(InverseLeaves(leaves)), [])
  {
    InverseKnown(leaves);
    if leaves != [] {
      var leaf, rest := leaves[0], leaves[1..];
      assert leaf in leaves;
      InverseCancels(rest);
      LeafCancels(leaf);
      MeaningsConcat(InverseLeaves(rest), InverseLeaf(leaf));
      var l, r, l', r' := MeaningOf(leaf), Meanings(rest), Meanings(InverseLeaf(leaf)), Meanings(InverseLeaves(rest));
      Nested(r', l', l, r);
      Nested(l, r, r', l');
    }
  }

  /**
   * With a single gate that the source leaves as it is, circuit and inverse cancel exactly when its angle is a
   * multiple of a full turn.
   */
  lemma KeptGateDecides(before: seq<Leaf>, leaf: Leaf, after: seq<Leaf>)
    requires AllInverted(before) && AllInverted(after) && ProperLeaf(leaf) && Kept(leaf)
    ensures var circ := before + [leaf] + after;
            && Refused !in circ && AllKnown(circ) && AllKnown(InverseLeaves(circ))
            && (Same(Meanings(InverseLeaves(circ)) + Meanings(circ), []) <==> Inverted(leaf))
  {
    var circ := before + [leaf] + after;
    InverseKnown(circ);
    InverseCancels(before);
    InverseCancels(after);
    KeptExact(leaf);
    OneMeaning(leaf);
    InverseConcat(before + [leaf], after);
    InverseConcat(before, [leaf]);
    InverseSingle(leaf);
    MeaningsConcat(before + [leaf], after);
    MeaningsConcat(before, [leaf]);
    MeaningsConcat(InverseLeaves(after), InverseLeaf(leaf) + InverseLeaves(before));
    MeaningsConcat(InverseLeaf(leaf), InverseLeaves(before));
    Outermost(Meanings(InverseLeaves(after)), MeaningOf(leaf), Meanings(InverseLeaves(before)), Meanings(before), Meanings(after));
  }

  /** A circuit of one CRX that its inverse circuit does not undo. */
  lemma CRXNotUndone(circ: seq<Leaf>)
    requires circ == [Turn(CRX, [0, 1], [Angle(0.6, 0.8)])]
    ensures Refused !in circ && AllKnown(circ) && AllKnown(InverseLeaves(circ))
    ensures !Same(Meanings(InverseLeaves(circ)) + Meanings(circ), [])
  {
    var leaf := Turn(CRX, [0, 1], [Angle(0.6, 0.8)]);
    assert circ == [] + [leaf] + [];
    CRXProper(0, 1, Angle(0.6, 0.8));
    assert FourTimes(Angle(0.6, 0.8)).sin != 0.0;
    KeptGateDecides([], leaf, []);
  }

  lemma CRXProper(c: nat, t: nat, a: Angle)
    requires c != t && a.Proper()
    ensures ProperLeaf(Turn(CRX, [c, t], [a]))
  {
    var turn, zz := [U1(t, a)], ZZGates(c, t, a.Plus(a).Minus());
    var body := turn + zz + turn;
    TurnProper(a, a);
    TurnProper(a.Plus(a), a);
    ProperConcat(turn, zz);
    ProperConcat(turn + zz, turn);
    ProperConcat([Ry(t, QUARTER_TURN.Minus())], body);
    ProperConcat([Ry(t, QUARTER_TURN.Minus())] + body, [Ry(t, QUARTER_TURN)]);
  }

  lemma InverseSingle(leaf: Leaf)
    requires !leaf.Refused?
    ensures InverseLeaves([leaf]) == InverseLeaf(leaf)
  {
    assert [leaf][1..] == [] && InverseLeaves([]) == [];
  }

  /** a undoes d and b' undoes b: what is left is m twice. */
  lemma Outermost(a: seq<Gate>, m: seq<Gate>, b': seq<Gate>, b: seq<Gate>, d: seq<Gate>)
    requires Same(b' + b, []) && Same(a + d, []) && Same(d + a, [])
    ensures Same((a + (m + b')) + (b + m + d), []) <==> Same(m + m, [])
  {
    var x, y := (a + (m + b')) + (b + m + d), a + m + m + d;
    Rewrite(Pull, x, y, a + m, b' + b, [], m + d);
    Rewrite(Pull, y, x, a + m, [], b' + b, m + d);
    if Same(m + m, []) {
      Rewrite(Pull, y, a + d, a, m + m, [], d);
      AlikeTrans(Pull, x, y, a + d);
    }
    if Same(x, []) {
      AlikeTrans(Pull, y, x, []);
      var z := d + y + a;
      Rewrite(Pull, z, d + a, d, y, [], a);
      Rewrite(Pull, z, m + m + (d + a), [], d + a, [], m + m + (d + a));
      Rewrite(Pull, m + m + (d + a), m + m, m + m, d + a, [], []);
    }
  }

  // ---------------------------------------------------------------- iSwap

  lemma TwoCNOTs(c: nat, t: nat)
    requires c != t
    ensures Same([CNOT(c, t), CNOT(t, c)], [Swap(c, t), CNOT(c, t)])
  {
    forall f: Letters -> real, kl: Letters
      ensures Expect(PullOn(c, t), [CNOT(c, t), CNOT(t, c)], f, kl) == Expect(PullOn(c, t), [Swap(c, t), CNOT(c, t)], f, kl)
    {
      ExpectPair(PullOn(c, t), CNOT(c, t), CNOT(t, c), f, kl);
      ExpectPair(PullOn(c, t), Swap(c, t), CNOT(c, t), f, kl);
    }
    TwoQubitRule([CNOT(c, t), CNOT(t, c)], [Swap(c, t), CNOT(c, t)], c, t);
  }

  lemma SwapAndCZ(c: nat, t: nat)
    requires c != t
    ensures Same([Swap(c, t), CZ(c, t)], [CZ(c, t), Swap(c, t)])
  {
    forall f: Letters -> real, kl: Letters
      ensures Expect(PullOn(c, t), [Swap(c, t), CZ(c, t)], f, kl) == Expect(PullOn(c, t), [CZ(c, t), Swap(c, t)], f, kl)
    {
      ExpectPair(PullOn(c, t), Swap(c, t), CZ(c, t), f, kl);
      ExpectPair(PullOn(c, t), CZ(c, t), Swap(c, t), f, kl);
    }
    TwoQubitRule([Swap(c, t), CZ(c, t)], [CZ(c, t), Swap(c, t)], c, t);
  }

  /** The four gates at the end of the product are CZ and a swap. */
  lemma SwapByHadamards(c: nat, t: nat)
    requires c != t
    ensures Same([H(c), CNOT(c, t), CNOT(t, c), H(t)], [CZ(c, t), Swap(c, t)])
  {
    var h, k, g, z, w := H(c), H(t), CNOT(c, t), CZ(c, t), Swap(c, t);
    var x0, x1, x2, x3, x4 := [h, g, CNOT(t, c), k], [h, w, g, k], [w, k, g, k], [w, z, k, k], [w, z];
    TwoCNOTs(c, t);
    SwapAndCZ(c, t);
    HeldPastSwap(h, c, t);
    CNOTPastH(c, t);
    HTwice(t);
    Rewrite(Pull, x0, x1, [h], [g, CNOT(t, c)], [w, g], [k]);
    Rewrite(Pull, x1, x2, [], [h, w], [w, k], [g, k]);
    Rewrite(Pull, x2, x3, [w], [k, g], [z, k], [k]);
    Rewrite(Pull, x3, x4, [w, z], [k, k], [], []);
    AlikeTrans(Pull, x0, x1, x2);
    AlikeTrans(Pull, x0, x2, x3);
    AlikeTrans(Pull, x0, x3, x4);
    AlikeTrans(Pull, x0, x4, [z, w]);
  }

  /** The product is iSwap: a phase i on both qubits that are 1, a sign if both are, and the swap. */
  lemma ISwapIsSwap(q0: nat, q1: nat)
    requires q0 != q1
    ensures Same(ISwapGates(q0, q1), [U1(q1, QUARTER_TURN), U1(q0, QUARTER_TURN), CZ(q0, q1), Swap(q0, q1)])
  {
    var phases := [U1(q1, QUARTER_TURN), U1(q0, QUARTER_TURN)];
    var whole := [U1(q1, QUARTER_TURN), U1(q0, QUARTER_TURN), CZ(q0, q1), Swap(q0, q1)];
    SwapByHadamards(q0, q1);
    Rewrite(Pull, ISwapGates(q0, q1), whole, phases, [H(q0), CNOT(q0, q1), CNOT(q1, q0), H(q1)], [CZ(q0, q1), Swap(q0, q1)], []);
  }

  // ---------------------------------------------------------------- inverting twice

  /** Leaves whose inverse is a single leaf. */
  predicate NoISwap(leaves: seq<Leaf>) {
    forall leaf :: leaf in leaves ==> !leaf.ISwap?
  }

  lemma {:induction false} InverseConcat(a: seq<Leaf>, b: seq<Leaf>)
    requires Refused !in a && Refused !in b
    ensures InverseLeaves(a + b) == InverseLeaves(b) + InverseLeaves(a)
  {
    if a == [] {
      assert a + b == b;
    } else {
      assert a[0] in a;
      InverseConcat(a[1..], b);
      InverseMore(a[0], a[1..], b);
      assert a == [a[0]] + a[1..];
    }
  }

  lemma InverseMore(leaf: Leaf, rest: seq<Leaf>, b: seq<Leaf>)
    requires !leaf.Refused? && Refused !in rest && Refused !in b
    requires InverseLeaves(rest + b) == InverseLeaves(b) + InverseLeaves(rest)
    ensures Refused !in [leaf] + rest && InverseLeaves([leaf] + rest + b) == InverseLeaves(b) + InverseLeaves([leaf] + rest)
  {
    InverseCons(leaf, rest);
    InverseCons(leaf, rest + b);
    G.AssociateThree([leaf], rest, b);
    G.AssociateThree(InverseLeaves(b), InverseLeaves(rest), InverseLeaf(leaf));
  }

  lemma InverseCons(leaf: Leaf, rest: seq<Leaf>)
    requires !leaf.Refused? && Refused !in rest
    ensures Refused !in [leaf] + rest && InverseLeaves([leaf] + rest) == InverseLeaves(rest) + InverseLeaf(leaf)
  {
    assert ([leaf] + rest)[1..] == rest;
  }

  lemma InverseOpTwice(op: D.Op)
    ensures InverseOp(InverseOp(op)) == op
  {}

  lemma InverseLeafTwice(leaf: Leaf)
    requires !leaf.Refused? && !leaf.ISwap?
    ensures InverseLeaves(InverseLeaf(leaf)) == [leaf]
  {
    var back := InverseLeaf(leaf);
    assert back[1..] == [] && InverseLeaves(back) == InverseLeaves([]) + InverseLeaf(back[0]);
    match leaf
    case Unitary(op) => InverseOpTwice(op);
    case Turn(kind, _, angles) => assert Listed(kind) ==> Negated(kind, Negated(kind, angles)) == angles;
    case Unlisted(_, _, _) =>
  }

  function ISwaps(leaves: seq<Leaf>): nat {
    if leaves == [] then 0 else (if leaves[0].ISwap? then 1 else 0) + ISwaps(leaves[1..])
  }

  /** An iSwap makes the list longer by five gates, and none is left after the first inversion. */
  lemma {:induction false} InverseSize(leaves: seq<Leaf>)
    requires Refused !in leaves
    ensures |InverseLeaves(leaves)| == |leaves| + 5 * ISwaps(leaves)
    ensures NoISwap(InverseLeaves(leaves))
  {
    if leaves != [] {
      assert leaves[0] in leaves;
      InverseSize(leaves[1..]);
    }
  }

  lemma {:induction false} CountZero(leaves: seq<Leaf>)
    ensures ISwaps(leaves) == 0 <==> NoISwap(leaves)
  {
    if leaves != [] {
      CountZero(leaves[1..]);
      assert leaves[0] in leaves && leaves == [leaves[0]] + leaves[1..];
    }
  }

  lemma {:induction false} WithoutISwap(leaves: seq<Leaf>)
    requires Refused !in leaves && NoISwap(leaves)
    ensures InverseLeaves(InverseLeaves(leaves)) == leaves
  {
    if leaves != [] {
      assert leaves[0] in leaves;
      WithoutISwap(leaves[1..]);
      InverseSize(leaves[1..]);
      InverseConcat(InverseLeaves(leaves[1..]), InverseLeaf(leaves[0]));
      InverseLeafTwice(leaves[0]);
    }
  }

  /** Inverting twice gives back the very same gates if and only if there is no iSwap among them. */
  lemma InverseTwice(leaves: seq<Leaf>)
    requires Refused !in leaves
    ensures InverseLeaves(InverseLeaves(leaves)) == leaves <==> NoISwap(leaves)
    ensures |InverseLeaves(InverseLeaves(leaves))| == |leaves| + 5 * ISwaps(leaves)
  {
    InverseSize(leaves);
    InverseSize(InverseLeaves(leaves));
    CountZero(leaves);
    CountZero(InverseLeaves(leaves));
    if NoISwap(leaves) { WithoutISwap(leaves); }
  }

  // ---------------------------------------------------------------- InverseCircuit::expand

  method ExpandUnitaryInverse(circ: seq<Leaf>) returns (ok: bool, inverse: seq<Leaf>)
    ensures ok <==> Refused !in circ
    ensures ok ==> inverse == InverseLeaves(circ)
  {
    var reversed := Reverse(circ);
    ReverseAt(circ);
    inverse := [];
    for i := 0 to |reversed|
      invariant Refused !in circ[|circ| - i..] && inverse == InverseLeaves(circ[|circ| - i..])
    {
      var leaf := reversed[i];
      ghost var at := |circ| - 1 - i;
      assert leaf == circ[at];
      if leaf.Refused? { return false, []; }
      assert circ[at..] == [leaf] + circ[at + 1..];
      if leaf.ISwap? {
        inverse := inverse + [Unitary(D.Op.H(leaf.q1)), Unitary(D.Op.CNOT(leaf.q1, leaf.q0)), Unitary(D.Op.CNOT(leaf.q0, leaf.q1)),
                              Unitary(D.Op.H(leaf.q0)), Unitary(D.Op.Sdg(leaf.q0)), Unitary(D.Op.Sdg(leaf.q1))];
      } else if leaf.Turn? && Listed(leaf.kind) {
        inverse := inverse + [Turn(leaf.kind, leaf.qubits, Negated(leaf.kind, leaf.angles))];
      } else if leaf.Unitary? {
        inverse := inverse + [Unitary(InverseOp(leaf.op))];
      } else {
        inverse := inverse + [leaf];
      }
    }
    assert circ[0..] == circ;
    ok := true;
  }
}
