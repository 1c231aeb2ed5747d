/**
 * The walk through the code, step by step, on any state and any contents of the ancillas: which steps
 * act on the score register, and what they leave there.
 */
module EncodingWalk {
  import opened Registers
  import opened Gates
  import opened Inverse
  import opened GrayCode
  import opened EncodingSteps
  import L = AncillaLadder

  // ---------------------------------------------------------------- sums of what the steps write

  /** The exclusive or of the sets of those among the first i steps that hit. */
  function Total(hit: nat -> bool, sets: nat -> set<Qubit>, i: nat): set<Qubit> {
    if i == 0 then {}
    else if hit(i - 1) then Inverted(Total(hit, sets, i - 1), sets(i - 1))
    else Total(hit, sets, i - 1)
  }

  lemma {:induction false} TotalWithin(hit: nat -> bool, sets: nat -> set<Qubit>, i: nat, all: set<Qubit>)
    requires forall j: nat :: j < i ==> sets(j) <= all
    ensures Total(hit, sets, i) <= all
  {
    if i > 0 { TotalWithin(hit, sets, i - 1, all); }
  }

  lemma {:induction false} TotalOfNoHit(hit: nat -> bool, sets: nat -> set<Qubit>, i: nat)
    requires forall j: nat :: j < i ==> !hit(j)
    ensures Total(hit, sets, i) == {}
  {
    if i > 0 { TotalOfNoHit(hit, sets, i - 1); }
  }

  lemma {:induction false} TotalOfOneHit(hit: nat -> bool, sets: nat -> set<Qubit>, i: nat, turn: nat)
    requires forall j: nat :: j < i ==> (hit(j) <==> j == turn)
    ensures Total(hit, sets, i) == if turn < i then sets(turn) else {}
  {
    if i > 0 {
      TotalOfOneHit(hit, sets, i - 1, turn);
      InvertTwice({}, sets(i - 1), {});
    }
  }

  function Single(q: Qubit, c: bool): set<Qubit> {
    if c then {q} else {}
  }

  lemma {:induction false} TotalOfOneScore(hit: nat -> bool, sets: nat -> set<Qubit>, i: nat, turn: nat, q: Qubit)
    requires forall j: nat :: j < i ==> sets(j) == Single(q, j == turn)
    ensures Total(hit, sets, i) == Single(q, turn < i && hit(turn))
  {
    if i > 0 { TotalOfOneScore(hit, sets, i - 1, turn, q); }
  }

  // ---------------------------------------------------------------- the walk

  /** The state whose score is written at step i. */
  function StateAt(d: Wires, i: nat): nat {
    Index(Flipped(Code(i, |d.states|)), d.isLSB)
  }

  /** The step at which the state register of s is all ones. */
  function Turn(s: State, d: Wires): (i: nat)
    ensures i < Pow2(|d.states|)
  {
    Rank(Flipped(Pattern(s, d.states)))
  }

  /** The state qubits that are inverted before step i; none are after the last one. */
  function WalkMask(d: Wires, i: nat): set<Qubit> {
    if i < Pow2(|d.states|) then Masked(d.states, Code(i, |d.states|)) else {}
  }

  /** The state register walked on to step i, and the flags inverted if that has been done. */
  function Walked(s: State, d: Wires, i: nat, flagged: bool): State {
    Inverted(Inverted(s, if flagged then Flagged(d, IndexOf(s, d)) else {}), WalkMask(d, i))
  }

  /** The score gates of step i act on s: what they look at is the state after the flags of that step. */
  predicate Hit(s: State, d: Wires, i: nat)
    requires d.Valid()
  {
    Fires(Walked(s, d, i, Turn(s, d) <= i), d)
  }

  function HitsOf(s: State, d: Wires): nat -> bool
    requires d.Valid()
  {
    (i: nat) => d.Valid() && Hit(s, d, i)
  }

  function ScoresOf(d: Wires, f: int -> int): nat -> set<Qubit> {
    (i: nat) => Scored(d, f(StateAt(d, i)))
  }

  /** The score qubits that i steps have inverted. */
  function Written(s: State, d: Wires, f: int -> int, i: nat): set<Qubit>
    requires d.Valid()
  {
    Total(HitsOf(s, d), ScoresOf(d, f), i)
  }

  /** The state after i steps. */
  function AfterSteps(s: State, d: Wires, f: int -> int, i: nat): State
    requires d.Valid()
  {
    Inverted(Walked(s, d, i, Turn(s, d) < i), Written(s, d, f, i))
  }

  lemma WrittenInScore(s: State, d: Wires, f: int -> int, i: nat)
    requires d.Valid()
    ensures forall q :: q in Written(s, d, f, i) ==> q in d.score
  {
    forall j: nat
      ensures ScoresOf(d, f)(j) <= QubitSet(d.score)
    {
      SelectedApart(d, f(StateAt(d, j)), |d.score|);
    }
    TotalWithin(HitsOf(s, d), ScoresOf(d, f), i, QubitSet(d.score));
  }

  /** Whether the score gates act does not depend on the score register. */
  lemma ScoreUnseen(s: State, d: Wires, score: set<Qubit>)
    requires d.Valid() && forall q :: q in score ==> q in d.score
    ensures AllOn(Inverted(s, score), d.states) <==> AllOn(s, d.states)
    ensures Fires(Inverted(s, score), d) <==> Fires(s, d)
  {
    if d.useAncilla { L.FiresAgree(s, Inverted(s, score), d.states, d.anc); }
  }

  lemma FlippedTwice(b: Bits)
    ensures Flipped(Flipped(b)) == b
  {}

  /** At step i the state register is all ones for the states whose turn it is, and for no others. */
  lemma AllOnAtTurn(s: State, d: Wires, i: nat)
    requires d.Valid() && i < Pow2(|d.states|)
    ensures AllOn(Inverted(s, WalkMask(d, i)), d.states) <==> Turn(s, d) == i
    ensures Turn(s, d) == i ==> StateAt(d, i) == IndexOf(s, d)
  {
    var code, pattern := Code(i, |d.states|), Pattern(s, d.states);
    AllOnMasked(s, d.states, code);
    CodeOfRank(Flipped(pattern));
    RankOfCode(i, |d.states|);
    FlippedTwice(pattern);
    IndexIsValue(s, d.states, d.isLSB);
  }

  /** Inverting one more state qubit leads from the mask of step i to that of step i + 1. */
  ghost predicate Advances(d: Wires, i: nat, q: Qubit) {
    q in d.states && WalkMask(d, i + 1) == Inverted(WalkMask(d, i), {q})
  }

  /** The flags are inverted at the turn of s and at no other step. */
  lemma FlagsAtTurn(s: State, d: Wires, i: nat)
    requires d.Valid() && i < Pow2(|d.states|)
    ensures AfterFlags(Walked(s, d, i, Turn(s, d) < i), d, StateAt(d, i)) == Walked(s, d, i, Turn(s, d) <= i)
  {
    var mask, flagged := WalkMask(d, i), if Turn(s, d) < i then Flagged(d, IndexOf(s, d)) else {};
    AllOnAtTurn(s, d, i);
    InvertTwice(s, flagged, mask);
    FlagsUnseen(Inverted(s, mask), d, flagged);
    InvertTwice(s, mask, Flagged(d, IndexOf(s, d)));
    InvertTwice(s, {}, mask);
  }

  lemma FlagsUnseen(s: State, d: Wires, flags: set<Qubit>)
    requires d.Valid() && flags <= QubitSet(d.flags)
    ensures AllOn(Inverted(s, flags), d.states) <==> AllOn(s, d.states)
  {
    assert forall q :: q in d.states ==> q !in QubitSet(d.flags);
  }

  lemma AfterFlagsBeside(s: State, d: Wires, k: int, score: set<Qubit>)
    requires d.Valid() && forall q :: q in score ==> q in d.score
    ensures AfterFlags(Inverted(s, score), d, k) == Inverted(AfterFlags(s, d, k), score)
  {
    ScoreUnseen(s, d, score);
    InvertTwice(s, score, Flagged(d, k));
  }

  lemma StepWrites(s: State, d: Wires, f: int -> int, i: nat)
    requires d.Valid() && i < Pow2(|d.states|)
    ensures Run(StepGates(d, f, StateAt(d, i)), AfterSteps(s, d, f, i))
         == Inverted(Walked(s, d, i, Turn(s, d) <= i), Written(s, d, f, i + 1))
  {
    var k, w := StateAt(d, i), Written(s, d, f, i);
    var t := Walked(s, d, i, Turn(s, d) <= i);
    WrittenInScore(s, d, f, i);
    assert HitsOf(s, d)(i) == Hit(s, d, i) && ScoresOf(d, f)(i) == Scored(d, f(k));
    StepActs(d, f, k, AfterSteps(s, d, f, i));
    AfterFlagsBeside(Walked(s, d, i, Turn(s, d) < i), d, k, w);
    FlagsAtTurn(s, d, i);
    ScoreUnseen(t, d, w);
    InvertTwice(t, w, Scored(d, f(k)));
  }

  lemma WalkStep(s: State, d: Wires, f: int -> int, i: nat, q: Qubit)
    requires d.Valid() && i < Pow2(|d.states|) && Advances(d, i, q)
    ensures Flip(Run(StepGates(d, f, StateAt(d, i)), AfterSteps(s, d, f, i)), q) == AfterSteps(s, d, f, i + 1)
  {
    var t := Inverted(s, if Turn(s, d) <= i then Flagged(d, IndexOf(s, d)) else {});
    var w := Written(s, d, f, i + 1);
    StepWrites(s, d, f, i);
    FlipMask(t, WalkMask(d, i), q, w);
  }

  lemma FlipMask(s: State, mask: set<Qubit>, q: Qubit, w: set<Qubit>)
    ensures Flip(Inverted(Inverted(s, mask), w), q) == Inverted(Inverted(s, Inverted(mask, {q})), w)
  {}

  lemma CodesAdvance(d: Wires, i: nat, j: nat)
    requires d.Fits() && i + 1 < Pow2(|d.states|)
    requires DifferOnlyAt(Code(i, |d.states|), Code(i + 1, |d.states|), j)
    ensures Advances(d, i, d.states[j])
  {
    MaskDiffers(d.states, Code(i, |d.states|), Code(i + 1, |d.states|), j);
  }

  lemma LastAdvance(d: Wires)
    requires d.Fits()
    ensures Advances(d, Pow2(|d.states|) - 1, d.states[0])
  {
    var code := Code(Pow2(|d.states|) - 1, |d.states|);
    LastCode(|d.states|);
    forall q
      ensures q in Masked(d.states, code) <==> q == d.states[0]
    {
      if q in d.states {
        var j :| 0 <= j < |d.states| && d.states[j] == q;
        MaskedAt(d.states, code, j);
      }
      MaskedAt(d.states, code, 0);
    }
  }

  lemma AdvanceExists(d: Wires, i: nat)
    requires d.Fits() && i < Pow2(|d.states|)
    ensures exists q :: Advances(d, i, q)
  {
    if i + 1 == Pow2(|d.states|) {
      LastAdvance(d);
    } else {
      var j := Adjacent(i, |d.states|);
      CodesAdvance(d, i, j);
    }
  }

  lemma AdvanceUnique(d: Wires, i: nat, q: Qubit, r: Qubit)
    requires Advances(d, i, q) && Advances(d, i, r)
    ensures q == r
  {
    var mask := WalkMask(d, i);
    assert Inverted(mask, {q}) == Inverted(mask, {r});
    assert q in Inverted(mask, {q}) <==> q !in mask;
  }

  /** The state qubit that is inverted at the end of step i. */
  ghost function FlipAt(d: Wires, i: nat): Qubit
    requires d.Fits() && i < Pow2(|d.states|)
  {
    AdvanceExists(d, i);
    var q :| Advances(d, i, q);
    q
  }

  lemma FlipAdvances(d: Wires, i: nat)
    requires d.Fits() && i < Pow2(|d.states|)
    ensures Advances(d, i, FlipAt(d, i))
  {
    AdvanceExists(d, i);
  }

  /** What each step emits. */
  ghost function StepsOf(d: Wires, f: int -> int): nat -> seq<Gate>
    requires d.Fits()
  {
    (i: nat) => if d.Fits() && i < Pow2(|d.states|) then StepGates(d, f, StateAt(d, i)) + [X(FlipAt(d, i))] else []
  }

  /** The parts of a circuit one after the other. */
  ghost function Chain(parts: nat -> seq<Gate>, i: nat): seq<Gate> {
    if i == 0 then [] else Chain(parts, i - 1) + parts(i - 1)
  }

  lemma {:induction false} ChainRuns(parts: nat -> seq<Gate>, states: nat -> State, i: nat)
    requires forall j: nat :: j < i ==> Run(parts(j), states(j)) == states(j + 1)
    ensures Run(Chain(parts, i), states(0)) == states(i)
  {
    if i > 0 {
      ChainRuns(parts, states, i - 1);
      RunConcat(Chain(parts, i - 1), parts(i - 1), states(0));
    }
  }

  /** The whole circuit. */
  ghost function EncodingGates(d: Wires, f: int -> int): seq<Gate>
    requires d.Fits()
  {
    Chain(StepsOf(d, f), Pow2(|d.states|))
  }

  lemma NothingWalked(s: State, d: Wires, f: int -> int)
    requires d.Valid()
    ensures AfterSteps(s, d, f, 0) == s
  {
    FirstCode(|d.states|);
    assert WalkMask(d, 0) == {};
    InvertTwice(s, {}, {});
  }

  function StatesOf(s: State, d: Wires, f: int -> int): nat -> State
    requires d.Valid()
  {
    (i: nat) => if d.Valid() then AfterSteps(s, d, f, i) else s
  }

  lemma WalkRuns(s: State, d: Wires, f: int -> int)
    requires d.Valid()
    ensures Run(EncodingGates(d, f), s) == AfterSteps(s, d, f, Pow2(|d.states|))
  {
    var steps, states := StepsOf(d, f), StatesOf(s, d, f);
    forall j: nat | j < Pow2(|d.states|)
      ensures Run(steps(j), states(j)) == states(j + 1)
    {
      StepRuns(s, d, f, j);
    }
    ChainRuns(steps, states, Pow2(|d.states|));
    StatesOfEnds(s, d, f);
  }

  lemma StatesOfEnds(s: State, d: Wires, f: int -> int)
    requires d.Valid()
    ensures StatesOf(s, d, f)(0) == s && StatesOf(s, d, f)(Pow2(|d.states|)) == AfterSteps(s, d, f, Pow2(|d.states|))
  {
    NothingWalked(s, d, f);
  }

  lemma StepRuns(s: State, d: Wires, f: int -> int, i: nat)
    requires d.Valid() && i < Pow2(|d.states|)
    ensures Run(StepsOf(d, f)(i), StatesOf(s, d, f)(i)) == StatesOf(s, d, f)(i + 1)
  {
    var t, step, q := AfterSteps(s, d, f, i), StepGates(d, f, StateAt(d, i)), FlipAt(d, i);
    RunConcat(step, [X(q)], t);
    RunOne(X(q), Run(step, t));
    FlipAdvances(d, i);
    WalkStep(s, d, f, i, q);
  }
}
