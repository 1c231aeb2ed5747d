/**
 * Layouts of the efficient encoding on which states lose their scores, and one on which flags and
 * ancillas overlap without harm.
 */
module EncodingExamples {
  import opened Registers
  import opened Gates
  import opened Inverse
  import opened GrayCode
  import opened EncodingSteps
  import opened EncodingWalk
  import opened EncodingSoundness
  import opened AncillaChoice
  import L = AncillaLadder

  /**
   * Two states, one score qubit, a flag on qubit 3 and no ancillas given: qubit 3 becomes the ancilla. The
   * flag of state 0 dirties the ladder before its score is written, and the score is lost.
   */
  lemma FlagOnAncilla()
    ensures var d := Equipped(Wires([0, 1], [2], [3], [], true, true, 0));
            && d.Valid() && d.anc == [3] && !Sound(d)
            && Run(EncodingGates(d, OnlyAt(0)), {}) == {3} && Inverted({}, Payload(d, OnlyAt(0), IndexOf({}, d))) == {2, 3}
  {
    FreeAfterTwo();
    FlagExample(Wires([0, 1], [2], [3], [3], true, true, 0));
  }

  lemma FlagExample(d: Wires)
    requires d == Wires([0, 1], [2], [3], [3], true, true, 0)
    ensures d.Valid() && !Sound(d) && Run(EncodingGates(d, OnlyAt(0)), {}) == {3}
    ensures Inverted({}, Payload(d, OnlyAt(0), IndexOf({}, d))) == {2, 3}
  {
    FlagWires(d);
    ZeroIndex(d);
    OddLosesScore({}, d);
    FlagPayload(d);
  }

  lemma FlagPayload(d: Wires)
    requires d.Valid() && d.score == [2] && d.flags == [3] && d.flagInteger == 0
    ensures Inverted({}, Payload(d, OnlyAt(0), 0)) == {2, 3} && Inverted({}, Flagged(d, 0)) == {3}
  {
    ScoreOneOrZero(d);
    assert QubitSet(d.flags) == {3};
  }

  lemma FlagWires(d: Wires)
    requires d == Wires([0, 1], [2], [3], [3], true, true, 0)
    ensures d.Valid() && Clean({}, d) && L.Sufficient(d.states, d.anc) && Flagged(d, 0) == {3}
    ensures L.OddlyMany(QubitSet(d.flags), d.anc, |d.states| - 1)
  {
    assert d.flags[0] == 3;
    assert !L.OddlyMany(QubitSet(d.flags), d.anc, 0);
    assert L.OddlyMany(QubitSet(d.flags), d.anc, 1);
  }

  lemma FreeAfterTwo()
    ensures Equipped(Wires([0, 1], [2], [3], [], true, true, 0)) == Wires([0, 1], [2], [3], [3], true, true, 0)
  {
    var taken, none: seq<Qubit> := [0, 1] + [2], [];
    assert taken == [0, 1, 2];
    assert taken[0] == 0 && taken[1] == 1 && taken[2] == 2;
    assert Free(taken, 4, 0) == none;
    assert Free(taken, 3, 1) == [3] + none == [3];
    assert Free(taken, 2, 1) == [3];
    assert Free(taken, 1, 1) == [3];
    assert none + [3] == [3];
  }

  lemma ZeroIndex(d: Wires)
    requires d.states == [0, 1] && d.isLSB
    ensures IndexOf({}, d) == 0
  {
    assert [0, 1][1..] == [1] && [1][1..] == [];
    assert Val({}, [1]) == 0;
  }

  lemma OddLosesScore(s: State, d: Wires)
    requires d.Valid() && d.useAncilla && Clean(s, d) && L.Sufficient(d.states, d.anc)
    requires IndexOf(s, d) == d.flagInteger && L.OddlyMany(QubitSet(d.flags), d.anc, |d.states| - 1)
    ensures Run(EncodingGates(d, OnlyAt(IndexOf(s, d))), s) == Inverted(s, Flagged(d, IndexOf(s, d)))
    ensures !Sound(d)
  {
    EncodingActs(d, OnlyAt(IndexOf(s, d)), s);
    var i := Turn(s, d);
    OddAtTurn(s, d);
    AllOnAtTurn(s, d, i);
    OnlyWritten(s, d, i, Pow2(|d.states|));
    IndexBound(s, d);
    InvertTwice(Inverted(s, Flagged(d, IndexOf(s, d))), {}, {});
  }

  /** One ancilla given where two are needed: the same one is added, and the second Toffoli hits its own control. */
  lemma AncillaTwice()
    ensures var d := Equipped(Wires([0, 1, 2], [3], [], [4], true, true, 0));
            d.anc == [4, 4] && !WellFormed(L.Up(d.states, d.anc, 3))
  {
    var d := Wires([0, 1, 2], [3], [], [4], true, true, 0);
    FreeAfterFour();
    assert d.anc + Missing(d) == [4] + [4] == [4, 4];
    assert Equipped(d).anc == [4, 4] && Equipped(d).states == d.states;
    L.UpWellFormed([0, 1, 2], [4, 4], 3);
  }

  lemma FreeAfterFour()
    ensures Free([0, 1, 2] + [3], 0, 1) == [4]
  {
    var taken, none: seq<Qubit> := [0, 1, 2] + [3], [];
    assert taken == [0, 1, 2, 3];
    assert taken[0] == 0 && taken[1] == 1 && taken[2] == 2 && taken[3] == 3;
    assert Free(taken, 5, 0) == none;
    assert Free(taken, 4, 1) == [4] + none == [4];
    assert Free(taken, 3, 1) == [4];
    assert Free(taken, 2, 1) == [4];
    assert Free(taken, 1, 1) == [4];
  }

  /**
   * Ancilla 6 given where three are needed: 4 and 6 are added. States 0 and 1 switch ancilla 6 on, and it is still
   * on when it is taken for the conjunction of all four: state 3 receives the score of state 15.
   */
  lemma AncillaAgain()
    ensures var d := Equipped(Wires([0, 1, 2, 3], [5], [], [6], true, true, 16));
            && d.Valid() && d.anc == [6, 4, 6] && IndexOf({0, 1}, d) == 3
            && Run(EncodingGates(d, OnlyAt(15)), {0, 1}) == {0, 1, 5}
            && Inverted({0, 1}, Payload(d, OnlyAt(15), 3)) == {0, 1}
  {
    FreeFourAndSix();
    AgainExample(Wires([0, 1, 2, 3], [5], [], [6, 4, 6], true, true, 16));
  }

  lemma FreeFourAndSix()
    ensures Equipped(Wires([0, 1, 2, 3], [5], [], [6], true, true, 16)) == Wires([0, 1, 2, 3], [5], [], [6, 4, 6], true, true, 16)
  {
    var taken := [0, 1, 2, 3] + [5];
    assert taken == [0, 1, 2, 3, 5];
    assert taken[0] == 0 && taken[1] == 1 && taken[2] == 2 && taken[3] == 3 && taken[4] == 5;
    FreeFromFour(taken);
    assert Free(taken, 3, 2) == [4, 6];
    assert Free(taken, 2, 2) == [4, 6];
    assert Free(taken, 1, 2) == [4, 6];
    assert [6] + [4, 6] == [6, 4, 6];
  }

  lemma FreeFromFour(taken: seq<Qubit>)
    requires 4 !in taken && 5 in taken && 6 !in taken
    ensures Free(taken, 4, 2) == [4, 6]
  {
    var none: seq<Qubit> := [];
    assert Free(taken, 7, 0) == none;
    assert Free(taken, 6, 1) == [6] + none == [6];
    assert Free(taken, 5, 1) == [6];
    assert [4] + [6] == [4, 6];
  }

  lemma AgainExample(d: Wires)
    requires d == Wires([0, 1, 2, 3], [5], [], [6, 4, 6], true, true, 16)
    ensures d.Valid() && IndexOf({0, 1}, d) == 3 && Run(EncodingGates(d, OnlyAt(15)), {0, 1}) == {0, 1, 5}
    ensures Inverted({0, 1}, Payload(d, OnlyAt(15), 3)) == {0, 1}
  {
    AgainWires(d);
    AgainIndices(d);
    StraysAtFirst({0, 1}, d, 15);
    AgainSets(d);
  }

  lemma AgainSets(d: Wires)
    requires d.Valid() && d.score == [5] && d.flagInteger == 16
    ensures Inverted({0, 1}, {d.score[0]}) == {0, 1, 5} && Inverted({0, 1}, Payload(d, OnlyAt(15), 3)) == {0, 1}
  {
    ScoreOneOrZero(d);
    assert Payload(d, OnlyAt(15), 3) == {};
  }

  lemma AgainWires(d: Wires)
    requires d == Wires([0, 1, 2, 3], [5], [], [6, 4, 6], true, true, 16)
    ensures d.Valid() && Fires({0, 1}, d)
  {
    var s: State := {0, 1};
    assert d.states[0] == 0 && d.states[1] == 1 && d.states[2] == 2 && d.states[3] == 3;
    L.UpStep(d.states, d.anc, 2, s);
    L.StaysPut(d.states, d.anc, 2, 4, s);
  }

  lemma AgainIndices(d: Wires)
    requires d == Wires([0, 1, 2, 3], [5], [], [6, 4, 6], true, true, 16)
    ensures IndexOf({0, 1}, d) == 3 && StateAt(d, 0) == 15
  {
    var c := Flipped(Code(0, 4));
    FirstCode(4);
    assert c == [true, true, true, true];
    assert c[1..] == [true, true, true] && c[1..][1..] == [true, true] && c[1..][1..][1..] == [true];
    assert Index([true], true) == 1 && Index([true, true], true) == 3 && Index([true, true, true], true) == 7;
    assert [0, 1, 2, 3][1..] == [1, 2, 3] && [1, 2, 3][1..] == [2, 3] && [2, 3][1..] == [3];
    assert Val({0, 1}, [3]) == 0 && Val({0, 1}, [2, 3]) == 0 && Val({0, 1}, [1, 2, 3]) == 1;
  }

  /** A step 0 that acts on a state whose turn it is not gives it the score of the state whose turn it is. */
  lemma StraysAtFirst(s: State, d: Wires, k: nat)
    requires d.Valid() && StateAt(d, 0) == k && Fires(s, d) && IndexOf(s, d) != d.flagInteger
    ensures Run(EncodingGates(d, OnlyAt(k)), s) == Inverted(s, {d.score[0]})
  {
    FirstCode(|d.states|);
    assert WalkMask(d, 0) == {};
    InvertTwice(s, {}, {});
    Unflagged(s, d, 0, s);
    EncodingActs(d, OnlyAt(k), s);
    OnlyWritten(s, d, 0, Pow2(|d.states|));
  }

  /** Two flags on the two ancillas of three state qubits do no harm to the encoding if state 6 is flagged. */
  lemma FlagsOnBothAncillas()
    ensures var d := Wires([0, 1, 2], [3], [4, 5], [4, 5], true, true, 6); d.Valid() && Sound(d)
  {
    var d := Wires([0, 1, 2], [3], [4, 5], [4, 5], true, true, 6);
    var flags := QubitSet(d.flags);
    assert Pow2(1) == 2 && Pow2(2) == 4 && Pow2(3) == 8;
    assert d.flags[0] == 4 && d.flags[1] == 5;
    assert !L.OddlyMany(flags, d.anc, 0);
    assert L.OddlyMany(flags, d.anc, 1);
    assert !L.OddlyMany(flags, d.anc, 2);
    assert !FlagBit(d, 0) && FlagBit(d, 1) && FlagBit(d, 2);
  }
}
