/**
 * The gates of one step of the encoding, and the scores and flags they write: what a step does to any
 * state, with any ancillas.
 */
module EncodingSteps {
  import opened Registers
  import opened Gates
  import opened Inverse
  import opened Footprints
  import opened GrayCode
  import L = AncillaLadder

  datatype Wires = Wires(states: seq<Qubit>, score: seq<Qubit>, flags: seq<Qubit>, anc: seq<Qubit>,
                         useAncilla: bool, isLSB: bool, flagInteger: int) {

    predicate Registers() {
      && |states| >= 1 && |score| >= 1 && Distinct(states) && Distinct(score) && Distinct(flags)
      && Disjoint(states, score) && Disjoint(states, flags) && Disjoint(score, flags)
    }

    /** Enough ancillas for the ladder, which needs two controls. */
    predicate Fits() {
      Registers() && (useAncilla ==> 2 <= |states| <= |anc| + 1)
    }

    /**
     * No gate has its target among its controls. Ancillas that are flags or that are listed more than
     * once, and more of them than are needed, are not ruled out.
     */
    predicate Valid() {
      Fits() && (useAncilla ==> L.Climbs(states, anc) && Disjoint(score, anc))
    }
  }

  // ---------------------------------------------------------------- flipping sets of qubits

  /** Every qubit of the set inverted. */
  function Inverted(s: State, qubits: set<Qubit>): State {
    (s - qubits) + (qubits - s)
  }

  /** Inverting is an exclusive or: it can be done in any order, and twice is not at all. */
  lemma InvertTwice(s: State, a: set<Qubit>, b: set<Qubit>)
    ensures Inverted(Inverted(s, a), b) == Inverted(s, Inverted(a, b)) == Inverted(Inverted(s, b), a)
    ensures Inverted({}, a) == Inverted(a, {}) == a && Inverted(a, a) == {}
  {}

  lemma XLayerInverts(reg: seq<Qubit>, s: State)
    requires Distinct(reg)
    ensures Run(XLayer(reg), s) == Inverted(s, QubitSet(reg))
  {
    RunXLayer(reg, s);
  }

  /** The qubits of reg at which the mask is set. */
  function Masked(reg: seq<Qubit>, mask: Bits): set<Qubit>
    requires |reg| == |mask|
  {
    set j | 0 <= j < |reg| && mask[j] :: reg[j]
  }

  function Pattern(s: State, reg: seq<Qubit>): (b: Bits)
    ensures |b| == |reg|
  {
    seq(|reg|, j requires 0 <= j < |reg| => reg[j] in s)
  }

  lemma MaskedAt(reg: seq<Qubit>, mask: Bits, j: nat)
    requires |reg| == |mask| && Distinct(reg) && j < |reg|
    ensures reg[j] in Masked(reg, mask) <==> mask[j]
  {
    if reg[j] in Masked(reg, mask) {
      var k :| 0 <= k < |reg| && mask[k] && reg[k] == reg[j];
      assert k == j;
    }
  }

  /** All of reg is on after inverting by the mask exactly when the mask is the inverted pattern. */
  lemma AllOnMasked(s: State, reg: seq<Qubit>, mask: Bits)
    requires |reg| == |mask| && Distinct(reg)
    ensures AllOn(Inverted(s, Masked(reg, mask)), reg) <==> mask == Flipped(Pattern(s, reg))
  {
    var t := Inverted(s, Masked(reg, mask));
    forall j | 0 <= j < |reg|
      ensures reg[j] in t <==> mask[j] == Flipped(Pattern(s, reg))[j]
    {
      MaskedAt(reg, mask, j);
    }
    if AllOn(t, reg) {
      assert forall j :: 0 <= j < |reg| ==> reg[j] in t;
    }
  }

  lemma MaskDiffers(reg: seq<Qubit>, a: Bits, b: Bits, j: nat)
    requires |reg| == |a| && Distinct(reg) && DifferOnlyAt(a, b, j)
    ensures Masked(reg, b) == Inverted(Masked(reg, a), {reg[j]})
  {
    forall q
      ensures q in Masked(reg, b) <==> q in Inverted(Masked(reg, a), {reg[j]})
    {
      if q in reg {
        var k :| 0 <= k < |reg| && reg[k] == q;
        MaskedAt(reg, a, k);
        MaskedAt(reg, b, k);
      }
    }
  }

  // ---------------------------------------------------------------- indices and scores

  /** The number a bit string stands for, its first bit lowest or highest. */
  function Index(c: Bits, isLSB: bool): nat {
    if c == [] then 0
    else if isLSB then (if c[0] then 1 else 0) + 2 * Index(c[1..], isLSB)
    else 2 * Index(c[..|c| - 1], isLSB) + if c[|c| - 1] then 1 else 0
  }

  /** The state's index is the value of its register in the declared order. */
  lemma {:induction false} IndexIsValue(s: State, reg: seq<Qubit>, isLSB: bool)
    ensures Index(Pattern(s, reg), isLSB) == Val(s, Oriented(reg, isLSB))
  {
    if reg != [] {
      if isLSB {
        assert Pattern(s, reg)[1..] == Pattern(s, reg[1..]);
        IndexIsValue(s, reg[1..], isLSB);
      } else {
        var m := |reg| - 1;
        assert Pattern(s, reg)[..m] == Pattern(s, reg[..m]);
        assert reg == reg[..m] + [reg[m]];
        ReverseSnoc(reg[..m], reg[m]);
        IndexIsValue(s, reg[..m], isLSB);
      }
    }
  }

  function IndexOf(s: State, d: Wires): nat {
    Val(s, Oriented(d.states, d.isLSB))
  }

  /** Binary digit j of v, in two's complement when v is negative. */
  predicate Digit(v: int, j: nat) {
    v / Pow2(j) % 2 == 1
  }

  /** The score qubits that a score v inverts, among the first j. */
  function Selected(score: seq<Qubit>, v: int, j: nat): seq<Qubit>
    requires j <= |score|
  {
    if j == 0 then [] else Selected(score, v, j - 1) + if Digit(v, j - 1) then [score[j - 1]] else []
  }

  /** The score qubits that a score v inverts. */
  function Scored(d: Wires, v: int): set<Qubit> {
    QubitSet(Selected(d.score, v, |d.score|))
  }

  /** The flags that state k inverts. */
  function Flagged(d: Wires, k: int): set<Qubit> {
    if k == d.flagInteger then QubitSet(d.flags) else {}
  }

  /** What state k inverts: the digits of its score, and the flags if it is the flagged state. */
  function Payload(d: Wires, f: int -> int, k: int): set<Qubit> {
    Scored(d, f(k)) + Flagged(d, k)
  }

  lemma {:induction false} SelectedMembers(score: seq<Qubit>, v: int, j: nat)
    requires j <= |score| && Distinct(score)
    ensures Distinct(Selected(score, v, j))
    ensures forall q :: q in Selected(score, v, j) <==> exists i :: 0 <= i < j && score[i] == q && Digit(v, i)
  {
    if j > 0 {
      var before, q := Selected(score, v, j - 1), score[j - 1];
      SelectedMembers(score, v, j - 1);
      assert q !in before;
      DistinctSnoc(before, q);
    }
  }

  lemma DistinctConcat(a: seq<Qubit>, b: seq<Qubit>)
    requires Distinct(a) && Distinct(b) && Disjoint(a, b)
    ensures Distinct(a + b)
  {
    if b == [] {
      assert a + b == a;
    } else {
      var m := |b| - 1;
      DistinctConcat(a, b[..m]);
      assert b[m] !in a && b[m] !in b[..m];
      DistinctSnoc(a + b[..m], b[m]);
      assert a + b[..m] + [b[m]] == a + b;
    }
  }

  lemma DistinctSnoc(reg: seq<Qubit>, q: Qubit)
    requires Distinct(reg) && q !in reg
    ensures Distinct(reg + [q])
  {}

  // ---------------------------------------------------------------- the gates of one step

  function ScoreGates(d: Wires, v: int, j: nat): seq<Gate>
    requires j <= |d.score|
  {
    if j == 0 then []
    else ScoreGates(d, v, j - 1) + if Digit(v, j - 1) then [Controlled(d.states, [X(d.score[j - 1])])] else []
  }

  function FlagGates(d: Wires, k: int): seq<Gate> {
    if k == d.flagInteger && d.flags != [] then [Controlled(d.states, XLayer(d.flags))] else []
  }

  function StepGates(d: Wires, f: int -> int, k: int): seq<Gate>
    requires d.Fits()
  {
    FlagGates(d, k)
    + if d.useAncilla then L.Ladder(d.states, d.anc, XLayer(Selected(d.score, f(k), |d.score|)))
      else ScoreGates(d, f(k), |d.score|)
  }

  lemma FlagGatesAct(d: Wires, k: int, s: State)
    requires d.Valid()
    ensures Run(FlagGates(d, k), s) == AfterFlags(s, d, k)
  {
    if FlagGates(d, k) != [] {
      RunOne(Controlled(d.states, XLayer(d.flags)), s);
      XLayerInverts(d.flags, s);
    }
  }

  lemma {:induction false} ScoreGatesAct(d: Wires, v: int, j: nat, s: State)
    requires d.Valid() && j <= |d.score|
    ensures Run(ScoreGates(d, v, j), s) == if AllOn(s, d.states) then Inverted(s, QubitSet(Selected(d.score, v, j))) else s
  {
    if j > 0 {
      var before := Selected(d.score, v, j - 1);
      ScoreGatesAct(d, v, j - 1, s);
      if Digit(v, j - 1) {
        var q := d.score[j - 1];
        var g := Controlled(d.states, [X(q)]);
        var t := Run(ScoreGates(d, v, j - 1), s);
        RunConcat(ScoreGates(d, v, j - 1), [g], s);
        RunOne(g, t);
        RunOne(X(q), t);
        SelectedMembers(d.score, v, j - 1);
        SelectedApart(d, v, j - 1);
        assert AllOn(t, d.states) <==> AllOn(s, d.states);
        assert q !in QubitSet(before);
        assert QubitSet(before + [q]) == QubitSet(before) + {q};
      } else {
        assert ScoreGates(d, v, j - 1) + [] == ScoreGates(d, v, j - 1);
        assert before + [] == before;
      }
    }
  }

  lemma SelectedApart(d: Wires, v: int, j: nat)
    requires d.Valid() && j <= |d.score|
    ensures forall q :: q in Selected(d.score, v, j) ==> q in d.score && q !in d.states && q !in d.flags
  {
    SelectedMembers(d.score, v, j);
  }

  function AfterFlags(s: State, d: Wires, k: int): State {
    if AllOn(s, d.states) then Inverted(s, Flagged(d, k)) else s
  }

  /** The score gates act: the state register is all ones, or the ladder says so. */
  predicate Fires(s: State, d: Wires)
    requires d.Valid()
  {
    if d.useAncilla then L.Fires(s, d.states, d.anc) else AllOn(s, d.states)
  }

  lemma LadderActs(d: Wires, v: int, s: State)
    requires d.Valid() && d.useAncilla
    ensures Run(L.Ladder(d.states, d.anc, XLayer(Selected(d.score, v, |d.score|))), s)
         == if Fires(s, d) then Inverted(s, Scored(d, v)) else s
  {
    var reg := Selected(d.score, v, |d.score|);
    SelectedMembers(d.score, v, |d.score|);
    SelectedApart(d, v, |d.score|);
    XLayerMentions(reg);
    L.LadderRuns(d.states, d.anc, XLayer(reg), s);
    XLayerInverts(reg, s);
  }

  /** One step on any state, in either mode, whatever the ancillas hold. */
  lemma StepActs(d: Wires, f: int -> int, k: int, s: State)
    requires d.Valid()
    ensures Run(StepGates(d, f, k), s)
         == var t := AfterFlags(s, d, k); if Fires(t, d) then Inverted(t, Scored(d, f(k))) else t
  {
    var t := AfterFlags(s, d, k);
    FlagGatesAct(d, k, s);
    if d.useAncilla {
      RunConcat(FlagGates(d, k), L.Ladder(d.states, d.anc, XLayer(Selected(d.score, f(k), |d.score|))), s);
      LadderActs(d, f(k), t);
    } else {
      RunConcat(FlagGates(d, k), ScoreGates(d, f(k), |d.score|), s);
      ScoreGatesAct(d, f(k), |d.score|, t);
    }
  }

  // ---------------------------------------------------------------- what the digits say

  /** Qubit by qubit: the score digits of the state are added, the flags inverted for the flagged state only. */
  lemma EncodedDigits(d: Wires, f: int -> int, s: State)
    requires d.Valid()
    ensures var k, t := IndexOf(s, d), Inverted(s, Payload(d, f, IndexOf(s, d)));
            && (forall j :: 0 <= j < |d.score| ==> (d.score[j] in t <==> (d.score[j] in s) != Digit(f(k), j)))
            && (forall q :: q in d.flags ==> (q in t <==> (q in s) != (k == d.flagInteger)))
            && (forall q :: q !in d.score && q !in d.flags ==> (q in t <==> q in s))
  {
    var k := IndexOf(s, d);
    SelectedMembers(d.score, f(k), |d.score|);
    forall j | 0 <= j < |d.score|
      ensures d.score[j] in Payload(d, f, k) <==> Digit(f(k), j)
    {
      assert d.score[j] in d.score;
      if d.score[j] in Selected(d.score, f(k), |d.score|) {
        var i :| 0 <= i < |d.score| && d.score[i] == d.score[j] && Digit(f(k), i);
        assert i == j;
      }
    }
  }

  /** A clean score register receives the state's score modulo 2^m. */
  lemma CleanScoreWritten(d: Wires, f: int -> int, s: State)
    requires d.Valid() && forall q :: q in d.score ==> q !in s
    ensures Val(Inverted(s, Payload(d, f, IndexOf(s, d))), d.score) == f(IndexOf(s, d)) % Pow2(|d.score|)
  {
    var k, t := IndexOf(s, d), Inverted(s, Payload(d, f, IndexOf(s, d)));
    EncodedDigits(d, f, s);
    forall j | 0 <= j < |d.score|
      ensures d.score[j] in t <==> Digit(f(k), j)
    {
      assert d.score[j] in d.score;
    }
    HoldsDigits(t, d.score, f(k));
    HoldsIsVal(t, d.score, f(k));
  }

  lemma {:induction false} HoldsDigits(s: State, reg: seq<Qubit>, v: int)
    requires forall j :: 0 <= j < |reg| ==> (reg[j] in s <==> Digit(v, j))
    ensures Holds(s, reg, v)
    decreases reg
  {
    if reg != [] {
      assert Digit(v, 0) <==> v % 2 == 1;
      forall j | 0 <= j < |reg[1..]|
        ensures reg[1..][j] in s <==> Digit(v / 2, j)
      {
        HalfDigit(v, j);
        assert reg[1..][j] == reg[j + 1];
      }
      HoldsDigits(s, reg[1..], v / 2);
    }
  }

  lemma HalfDigit(v: int, j: nat)
    ensures Digit(v / 2, j) <==> Digit(v, j + 1)
  {
    var p := Pow2(j);
    var w, r := v / 2 / p, v / 2 % p;
    assert v == 2 * (v / 2) + v % 2 && v / 2 == p * w + r;
    Double(p, w);
    ModUnique(v, 2 * p, w, 2 * r + v % 2);
  }
}
