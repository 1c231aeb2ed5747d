/** When the efficient encoding is right. */
module EncodingSoundness {
  import opened Registers
  import opened Gates
  import opened Inverse
  import opened GrayCode
  import opened EncodingSteps
  import opened EncodingWalk
  import L = AncillaLadder

  // ---------------------------------------------------------------- what the encoding leaves

  /** What the whole circuit does to a state, for any contents of the ancillas. */
  function Encoded(s: State, d: Wires, f: int -> int): State
    requires d.Valid()
  {
    Inverted(Inverted(s, Flagged(d, IndexOf(s, d))), Written(s, d, f, Pow2(|d.states|)))
  }

  /** What the encoding is for: the score of the state and, if it is the flagged one, the flags. */
  ghost predicate Right(s: State, d: Wires, f: int -> int)
    requires d.Valid()
  {
    Encoded(s, d, f) == Inverted(s, Payload(d, f, IndexOf(s, d)))
  }

  /** On every state. */
  lemma EncodingActs(d: Wires, f: int -> int, s: State)
    requires d.Valid()
    ensures Run(EncodingGates(d, f), s) == Encoded(s, d, f)
  {
    WalkRuns(s, d, f);
    InvertTwice(s, Flagged(d, IndexOf(s, d)), {});
  }

  /** The score gates act on s at its turn and at no other step. */
  ghost predicate Faithful(s: State, d: Wires)
    requires d.Valid()
  {
    forall i: nat :: i < Pow2(|d.states|) ==> (Hit(s, d, i) <==> Turn(s, d) == i)
  }

  lemma WrittenAtTurn(s: State, d: Wires, f: int -> int, i: nat)
    requires d.Valid() && Faithful(s, d) && i <= Pow2(|d.states|)
    ensures Written(s, d, f, i) == if Turn(s, d) < i then Scored(d, f(IndexOf(s, d))) else {}
  {
    AllOnAtTurn(s, d, Turn(s, d));
    TotalOfOneHit(HitsOf(s, d), ScoresOf(d, f), i, Turn(s, d));
  }

  lemma FaithfulIsRight(s: State, d: Wires, f: int -> int)
    requires d.Valid() && Faithful(s, d)
    ensures Right(s, d, f)
  {
    var k := IndexOf(s, d);
    WrittenAtTurn(s, d, f, Pow2(|d.states|));
    SelectedApart(d, f(k), |d.score|);
    InvertTwice(s, Flagged(d, k), Scored(d, f(k)));
    assert Inverted(Flagged(d, k), Scored(d, f(k))) == Payload(d, f, k);
  }

  /** The score 1 for state k and 0 for all others. */
  function OnlyAt(k: int): int -> int {
    (x: int) => if x == k then 1 else 0
  }

  lemma ScoreOneOrZero(d: Wires)
    requires d.Valid()
    ensures Scored(d, 1) == {d.score[0]} && Scored(d, 0) == {}
  {
    SelectedOne(d.score, |d.score|);
    SelectedZero(d.score, |d.score|);
  }

  lemma {:induction false} SelectedZero(score: seq<Qubit>, j: nat)
    requires j <= |score|
    ensures Selected(score, 0, j) == []
  {
    if j > 0 { SelectedZero(score, j - 1); }
  }

  lemma {:induction false} SelectedOne(score: seq<Qubit>, j: nat)
    requires 1 <= j <= |score|
    ensures Selected(score, 1, j) == [score[0]]
  {
    DigitOfOne(j - 1);
    if j > 1 {
      SelectedOne(score, j - 1);
    } else {
      assert Selected(score, 1, 0) == [];
    }
  }

  lemma DigitOfOne(j: nat)
    ensures Digit(1, j) <==> j == 0
  {
    if j > 0 { OneBelow(Pow2(j - 1)); }
  }

  lemma OneBelow(p: nat)
    requires p >= 1
    ensures 1 / (2 * p) == 0
  {}

  lemma {:induction false} IndexInjective(a: Bits, b: Bits, isLSB: bool)
    requires |a| == |b| && Index(a, isLSB) == Index(b, isLSB)
    ensures a == b
  {
    if a != [] {
      var m := |a| - 1;
      if isLSB {
        IndexInjective(a[1..], b[1..], isLSB);
      } else {
        IndexInjective(a[..m], b[..m], isLSB);
        assert a == a[..m] + [a[m]] && b == b[..m] + [b[m]];
      }
    }
  }

  /** Every state has one step. */
  lemma StatesDiffer(d: Wires, i: nat, j: nat)
    requires i < Pow2(|d.states|) && j < Pow2(|d.states|) && StateAt(d, i) == StateAt(d, j)
    ensures i == j
  {
    IndexInjective(Flipped(Code(i, |d.states|)), Flipped(Code(j, |d.states|)), d.isLSB);
    FlippedTwice(Code(i, |d.states|));
    FlippedTwice(Code(j, |d.states|));
    RankOfCode(i, |d.states|);
    RankOfCode(j, |d.states|);
  }

  lemma OnlyWritten(s: State, d: Wires, i: nat, m: nat)
    requires d.Valid() && i < Pow2(|d.states|) && m <= Pow2(|d.states|)
    ensures Written(s, d, OnlyAt(StateAt(d, i)), m) == Single(d.score[0], i < m && Hit(s, d, i))
  {
    forall j: nat | j < m
      ensures ScoresOf(d, OnlyAt(StateAt(d, i)))(j) == Single(d.score[0], i == j)
    {
      OnlyScored(d, i, j);
    }
    TotalOfOneScore(HitsOf(s, d), ScoresOf(d, OnlyAt(StateAt(d, i))), m, i, d.score[0]);
  }

  lemma OnlyScored(d: Wires, i: nat, j: nat)
    requires d.Valid() && i < Pow2(|d.states|) && j < Pow2(|d.states|)
    ensures Scored(d, OnlyAt(StateAt(d, i))(StateAt(d, j))) == Single(d.score[0], i == j)
  {
    if StateAt(d, j) == StateAt(d, i) { StatesDiffer(d, j, i); }
    ScoreOneOrZero(d);
  }

  /** A step at which the score gates act when they should not, or do not when they should, loses a score. */
  lemma UnfaithfulIsWrong(s: State, d: Wires, i: nat)
    requires d.Valid() && i < Pow2(|d.states|) && (Hit(s, d, i) <==> Turn(s, d) != i)
    ensures !Right(s, d, OnlyAt(StateAt(d, i)))
  {
    var f, k, q := OnlyAt(StateAt(d, i)), IndexOf(s, d), d.score[0];
    OnlyWritten(s, d, i, Pow2(|d.states|));
    AllOnAtTurn(s, d, Turn(s, d));
    if StateAt(d, i) == k { StatesDiffer(d, i, Turn(s, d)); }
    ScoreOneOrZero(d);
    assert q in d.score;
    assert q in Encoded(s, d, f) <==> (q in s) != Hit(s, d, i);
    assert q in Inverted(s, Payload(d, f, k)) <==> (q in s) != (Turn(s, d) == i);
  }

  /** For every scoring function the encoding of s is right exactly when no step misses or strays. */
  lemma RightIsFaithful(s: State, d: Wires)
    requires d.Valid()
    ensures (forall f :: Right(s, d, f)) <==> Faithful(s, d)
  {
    if Faithful(s, d) {
      forall f ensures Right(s, d, f) { FaithfulIsRight(s, d, f); }
    } else {
      var i: nat :| i < Pow2(|d.states|) && (Hit(s, d, i) <==> Turn(s, d) != i);
      UnfaithfulIsWrong(s, d, i);
    }
  }

  // ---------------------------------------------------------------- flags among the ancillas

  predicate Clean(s: State, d: Wires) {
    forall q :: q in d.anc ==> q !in s
  }

  /** State qubit j as it is in the flagged state. */
  predicate FlagBit(d: Wires, j: nat)
    requires j < |d.states|
  {
    Digit(d.flagInteger, if d.isLSB then j else |d.states| - 1 - j)
  }

  /**
   * Flags among the ancillas do no harm if there is an even number of them and the flagged state begins
   * with 0, followed by ones as far as the control of each of these ancillas.
   */
  predicate Harmless(d: Wires)
    requires d.Valid() && d.useAncilla
  {
    && !L.OddlyMany(QubitSet(d.flags), d.anc, |d.states| - 1)
    && forall m :: 0 <= m < |d.states| - 1 && d.anc[m] in d.flags ==> Begins(d, m)
  }

  predicate Begins(d: Wires, m: nat)
    requires m + 1 < |d.states|
  {
    !FlagBit(d, 0) && forall j :: 1 <= j <= m + 1 ==> FlagBit(d, j)
  }

  /** When the encoding is right: without ancillas always, with them as the flags allow. */
  predicate Sound(d: Wires)
    requires d.Valid()
  {
    d.useAncilla ==>
      L.Sufficient(d.states, d.anc) && (0 <= d.flagInteger < Pow2(|d.states|) ==> Harmless(d))
  }

  /** What the ladder of step i looks at, for a state with clean ancillas. */
  lemma SeenBits(s: State, d: Wires, i: nat)
    requires d.Valid() && d.useAncilla && Clean(s, d) && i < Pow2(|d.states|)
    ensures var t := Walked(s, d, i, Turn(s, d) <= i);
            && (forall j :: 0 <= j < |d.states| ==>
                  (d.states[j] in t <==> Code(i, |d.states|)[j] == Code(Turn(s, d), |d.states|)[j]))
            && (forall q :: q in d.anc ==> (q in t <==> Turn(s, d) <= i && IndexOf(s, d) == d.flagInteger && q in d.flags))
  {
    var n := |d.states|;
    CodeOfRank(Flipped(Pattern(s, d.states)));
    forall j | 0 <= j < n
      ensures d.states[j] in Walked(s, d, i, Turn(s, d) <= i) <==> Code(i, n)[j] == Code(Turn(s, d), n)[j]
    {
      MaskedAt(d.states, Code(i, n), j);
      assert d.states[j] in d.states && d.states[j] !in QubitSet(d.flags);
    }
    forall q | q in d.anc
      ensures q !in WalkMask(d, i)
    {
      assert q !in d.states;
    }
  }

  lemma SameCode(d: Wires, i: nat, j: nat)
    requires i < Pow2(|d.states|) && j < Pow2(|d.states|)
    ensures Code(i, |d.states|) == Code(j, |d.states|) <==> i == j
  {
    RankOfCode(i, |d.states|);
    RankOfCode(j, |d.states|);
  }

  /** With one ancilla fewer than state qubits and no flag on them the ladder acts at its turn only. */
  lemma CleanIsFaithful(s: State, d: Wires)
    requires d.Valid() && d.useAncilla && Clean(s, d) && L.Sufficient(d.states, d.anc)
    requires IndexOf(s, d) != d.flagInteger || Disjoint(d.anc, d.flags)
    ensures Faithful(s, d)
  {
    forall i: nat | i < Pow2(|d.states|)
      ensures Hit(s, d, i) <==> Turn(s, d) == i
    {
      CleanStep(s, d, i);
    }
  }

  lemma CleanStep(s: State, d: Wires, i: nat)
    requires d.Valid() && d.useAncilla && Clean(s, d) && L.Sufficient(d.states, d.anc) && i < Pow2(|d.states|)
    requires IndexOf(s, d) != d.flagInteger || Disjoint(d.anc, d.flags) || i < Turn(s, d)
    ensures Hit(s, d, i) <==> Turn(s, d) == i
  {
    var t := Walked(s, d, i, Turn(s, d) <= i);
    SeenBits(s, d, i);
    assert forall m :: 0 <= m < |d.anc| ==> d.anc[m] in d.anc;
    HitEvenly(s, d, i, t);
    L.NoneOdd(t, d.anc, |d.states| - 1);
  }

  /** The ladder acts at the turn, if the dirty ancillas are evenly many and the controls up to each of them are on. */
  lemma HitEvenly(s: State, d: Wires, i: nat, t: State)
    requires d.Valid() && d.useAncilla && Clean(s, d) && L.Sufficient(d.states, d.anc) && i < Pow2(|d.states|)
    requires t == Walked(s, d, i, Turn(s, d) <= i)
    requires forall m :: 0 <= m < |d.states| - 1 && d.anc[m] in t ==> AllOn(t, d.states[..m + 2])
    ensures Hit(s, d, i) <==> Turn(s, d) == i && !L.OddlyMany(t, d.anc, |d.states| - 1)
  {
    L.FiresCarried(t, d.states, d.anc);
    L.CarriedEvenly(t, d.states, d.anc, |d.states|);
    AllOnIsTurn(s, d, i, t);
  }

  /** From its turn on, the flagged state sees the ancillas that are flags. */
  lemma DirtyFrom(s: State, d: Wires, i: nat, t: State)
    requires d.Valid() && d.useAncilla && Clean(s, d) && Turn(s, d) <= i < Pow2(|d.states|)
    requires IndexOf(s, d) == d.flagInteger && t == Walked(s, d, i, true)
    ensures forall m :: 0 <= m < |d.states| - 1 ==> (d.anc[m] in t <==> d.anc[m] in d.flags)
    ensures L.OddlyMany(t, d.anc, |d.states| - 1) == L.OddlyMany(QubitSet(d.flags), d.anc, |d.states| - 1)
  {
    SeenBits(s, d, i);
    assert forall m :: 0 <= m < |d.anc| ==> d.anc[m] in d.anc;
    SameOdd(t, QubitSet(d.flags), d.anc, |d.states| - 1);
  }

  lemma AllOnIsTurn(s: State, d: Wires, i: nat, t: State)
    requires d.Valid() && d.useAncilla && Clean(s, d) && i < Pow2(|d.states|)
    requires t == Walked(s, d, i, Turn(s, d) <= i)
    ensures AllOn(t, d.states[..|d.states|]) <==> Turn(s, d) == i
  {
    SeenBits(s, d, i);
    SameCode(d, i, Turn(s, d));
    assert d.states[..|d.states|] == d.states;
    if AllOn(t, d.states) {
      assert forall j :: 0 <= j < |d.states| ==> d.states[j] in t;
      assert Code(i, |d.states|) == Code(Turn(s, d), |d.states|);
    }
  }

  lemma {:induction false} SameOdd(s: State, t: State, anc: seq<Qubit>, m: nat)
    requires m <= |anc| && forall j :: 0 <= j < m ==> (anc[j] in s <==> anc[j] in t)
    ensures L.OddlyMany(s, anc, m) == L.OddlyMany(t, anc, m)
  {
    if m > 0 { SameOdd(s, t, anc, m - 1); }
  }

  /** The flagged state's turn begins with as many ones as its pattern, inverted, says. */
  lemma TurnLeads(s: State, d: Wires, m: nat)
    requires d.Valid() && IndexOf(s, d) == d.flagInteger && m + 1 < |d.states|
    ensures Begins(d, m) <==> LeadsWithOnes(Code(Turn(s, d), |d.states|), m + 2)
  {
    var c := Code(Turn(s, d), |d.states|);
    CodeOfRank(Flipped(Pattern(s, d.states)));
    LeadIsFirstBit(c, m + 2);
    forall j | 0 <= j < |d.states|
      ensures FlagBit(d, j) <==> !c[j]
    {
      FlagBitHeld(s, d, j);
    }
  }

  lemma FlagBitHeld(s: State, d: Wires, j: nat)
    requires d.Valid() && IndexOf(s, d) == d.flagInteger && j < |d.states|
    ensures FlagBit(d, j) <==> d.states[j] in s
  {
    if d.isLSB {
      ValDigit(s, d.states, j);
    } else {
      ReverseAt(d.states);
      ValDigit(s, Reverse(d.states), |d.states| - 1 - j);
    }
  }

  lemma {:induction false} ValDigit(s: State, reg: seq<Qubit>, j: nat)
    requires j < |reg|
    ensures Digit(Val(s, reg), j) <==> reg[j] in s
  {
    if j == 0 {
      assert Digit(Val(s, reg), 0) <==> Val(s, reg) % 2 == 1;
    } else {
      ValDigit(s, reg[1..], j - 1);
      HalfDigit(Val(s, reg), j - 1);
    }
  }

  /** Under harmless flags the ladder acts at its turn only. */
  lemma HarmlessIsFaithful(s: State, d: Wires)
    requires d.Valid() && d.useAncilla && Clean(s, d) && L.Sufficient(d.states, d.anc)
    requires IndexOf(s, d) == d.flagInteger && Harmless(d)
    ensures Faithful(s, d)
  {
    forall i: nat | i < Pow2(|d.states|)
      ensures Hit(s, d, i) <==> Turn(s, d) == i
    {
      HarmlessStep(s, d, i);
    }
  }

  lemma HarmlessStep(s: State, d: Wires, i: nat)
    requires d.Valid() && d.useAncilla && Clean(s, d) && L.Sufficient(d.states, d.anc) && i < Pow2(|d.states|)
    requires IndexOf(s, d) == d.flagInteger && Harmless(d)
    ensures Hit(s, d, i) <==> Turn(s, d) == i
  {
    if i < Turn(s, d) {
      CleanStep(s, d, i);
    } else {
      var t := Walked(s, d, i, true);
      DirtyFrom(s, d, i, t);
      forall m | 0 <= m < |d.states| - 1 && d.anc[m] in t
        ensures AllOn(t, d.states[..m + 2])
      {
        LeadingOn(s, d, i, m, t);
      }
      HitEvenly(s, d, i, t);
    }
  }

  lemma LeadingOn(s: State, d: Wires, i: nat, m: nat, t: State)
    requires d.Valid() && d.useAncilla && Clean(s, d) && i < Pow2(|d.states|) && m + 1 < |d.states|
    requires IndexOf(s, d) == d.flagInteger && Begins(d, m) && Turn(s, d) <= i
    requires t == Walked(s, d, i, Turn(s, d) <= i)
    ensures AllOn(t, d.states[..m + 2])
  {
    SeenBits(s, d, i);
    TurnLeads(s, d, m);
    LeadsAlike(d, Turn(s, d), i, m + 2);
  }

  lemma LeadsAlike(d: Wires, turn: nat, i: nat, m: nat)
    requires turn <= i < Pow2(|d.states|) && m <= |d.states| && LeadsWithOnes(Code(turn, |d.states|), m)
    ensures forall j :: 0 <= j < m ==> Code(turn, |d.states|)[j] == Code(i, |d.states|)[j]
  {
    var c, e := Code(turn, |d.states|), Code(i, |d.states|);
    RankOfCode(i, |d.states|);
    RankOfCode(turn, |d.states|);
    LeadStays(c, e, m);
    forall j | 0 <= j < m
      ensures c[j] == e[j]
    {
      assert c[..m][j] == c[j] && e[..m][j] == e[j];
    }
  }

  /** An odd number of flags among the ancillas keeps the flagged state's own score from being written. */
  lemma OddAtTurn(s: State, d: Wires)
    requires d.Valid() && d.useAncilla && Clean(s, d) && L.Sufficient(d.states, d.anc)
    requires IndexOf(s, d) == d.flagInteger && L.OddlyMany(QubitSet(d.flags), d.anc, |d.states| - 1)
    ensures !Hit(s, d, Turn(s, d))
  {
    var i := Turn(s, d);
    var t := Walked(s, d, i, true);
    DirtyFrom(s, d, i, t);
    AllOnIsTurn(s, d, i, t);
    assert d.states[..|d.states|] == d.states;
    HitEvenly(s, d, i, t);
  }

  /** Flags that are not harmless make the ladder of some step act wrongly on the flagged state. */
  lemma HarmfulStep(s: State, d: Wires) returns (i: nat)
    requires d.Valid() && d.useAncilla && Clean(s, d) && L.Sufficient(d.states, d.anc)
    requires IndexOf(s, d) == d.flagInteger && !Harmless(d)
    ensures i < Pow2(|d.states|) && (Hit(s, d, i) <==> Turn(s, d) != i)
  {
    var n := |d.states|;
    if L.OddlyMany(QubitSet(d.flags), d.anc, n - 1) {
      i := Turn(s, d);
      OddAtTurn(s, d);
    } else {
      var m :| 0 <= m < n - 1 && d.anc[m] in d.flags && !Begins(d, m);
      var last := LastFlag(d, m, n - 1);
      i := StrayStep(s, d, last);
    }
  }

  /** The last ancilla that is a flag. */
  lemma {:induction false} LastFlag(d: Wires, m: nat, k: nat) returns (last: nat)
    requires m < k <= |d.anc| && d.anc[m] in d.flags
    ensures m <= last < k && d.anc[last] in d.flags && forall j :: last < j < k ==> d.anc[j] !in d.flags
  {
    if d.anc[k - 1] in d.flags {
      last := k - 1;
    } else {
      last := LastFlag(d, m, k - 1);
    }
  }

  /** A later step differs from the turn in the control of the last flag, and in none after it. */
  lemma StrayStep(s: State, d: Wires, m: nat) returns (i: nat)
    requires d.Valid() && d.useAncilla && Clean(s, d) && L.Sufficient(d.states, d.anc)
    requires IndexOf(s, d) == d.flagInteger && m < |d.states| - 1 && d.anc[m] in d.flags && !Begins(d, m)
    requires forall j :: m < j < |d.states| - 1 ==> d.anc[j] !in d.flags
    ensures i < Pow2(|d.states|) && Hit(s, d, i) && Turn(s, d) != i
  {
    var n := |d.states|;
    var c := Code(Turn(s, d), n);
    TurnLeads(s, d, m);
    RankOfCode(Turn(s, d), n);
    var e := LaterCode(c, m + 1);
    i := Rank(e);
    CodeOfRank(e);
    Strays(s, d, m, i);
  }

  lemma Strays(s: State, d: Wires, m: nat, i: nat)
    requires d.Valid() && d.useAncilla && Clean(s, d) && L.Sufficient(d.states, d.anc)
    requires IndexOf(s, d) == d.flagInteger && m < |d.states| - 1 && d.anc[m] in d.flags && Turn(s, d) <= i < Pow2(|d.states|)
    requires forall j :: m < j < |d.states| - 1 ==> d.anc[j] !in d.flags
    requires Code(i, |d.states|)[m + 1] != Code(Turn(s, d), |d.states|)[m + 1]
    requires forall j :: m + 1 < j < |d.states| ==> Code(i, |d.states|)[j] == Code(Turn(s, d), |d.states|)[j]
    ensures Hit(s, d, i)
  {
    SeenBits(s, d, i);
    assert forall j :: 0 <= j < |d.anc| ==> d.anc[j] in d.anc;
    L.FiresCarried(Walked(s, d, i, true), d.states, d.anc);
    L.CarriedFalsely(Walked(s, d, i, true), d.states, d.anc, m, |d.states|);
  }

  lemma LaterCode(c: Bits, m: nat) returns (e: Bits)
    requires m < |c| && !LeadsWithOnes(c, m + 1)
    ensures |e| == |c| && Rank(c) < Rank(e) && e[m] != c[m] && forall j :: m < j < |c| ==> e[j] == c[j]
  {
    var p :| 0 <= p < m + 1 && !RankDigit(c, p);
    e := c[p := !c[p]];
    if p < m { e := e[m := !c[m]]; }
    assert c[..p] == e[..p];
    RankGrows(c, e, p);
  }

  /** A state with clean ancillas and the given index. */
  lemma WithIndex(d: Wires, k: nat) returns (s: State)
    requires d.Valid() && k < Pow2(|d.states|)
    ensures IndexOf(s, d) == k && forall q :: q in s ==> q in d.states
  {
    var reg := Oriented(d.states, d.isLSB);
    OrientedMembers(d.states, d.isLSB);
    s := Write({}, reg, k);
    ReadBack({}, reg, k);
    assert AgreeOff({}, s, reg);
  }

  /**
   * The encoding is right for all scores and all states with clean ancillas if and only if ancillas are not
   * used, or they suffice and the flags among them cannot be set or are harmless.
   */
  lemma EncodingExact(d: Wires)
    requires d.Valid()
    ensures Sound(d) <==> forall s, f :: (d.useAncilla ==> Clean(s, d)) ==>
                            Run(EncodingGates(d, f), s) == Inverted(s, Payload(d, f, IndexOf(s, d)))
  {
    if Sound(d) {
      forall s, f | d.useAncilla ==> Clean(s, d)
        ensures Run(EncodingGates(d, f), s) == Inverted(s, Payload(d, f, IndexOf(s, d)))
      {
        SoundIsRight(d, s, f);
        EncodingActs(d, f, s);
      }
    } else {
      var s, f := UnsoundIsWrong(d);
      EncodingActs(d, f, s);
    }
  }

  lemma SoundIsRight(d: Wires, s: State, f: int -> int)
    requires d.Valid() && Sound(d) && (d.useAncilla ==> Clean(s, d))
    ensures Right(s, d, f)
  {
    if !d.useAncilla {
      PlainIsFaithful(s, d);
    } else if IndexOf(s, d) != d.flagInteger {
      CleanIsFaithful(s, d);
    } else {
      IndexBound(s, d);
      HarmlessIsFaithful(s, d);
    }
    FaithfulIsRight(s, d, f);
  }

  lemma IndexBound(s: State, d: Wires)
    ensures IndexOf(s, d) < Pow2(|d.states|)
  {
    ValBound(s, Oriented(d.states, d.isLSB));
  }

  lemma PlainIsFaithful(s: State, d: Wires)
    requires d.Valid() && !d.useAncilla
    ensures Faithful(s, d)
  {
    forall i: nat | i < Pow2(|d.states|)
      ensures Hit(s, d, i) <==> Turn(s, d) == i
    {
      var flagged := if Turn(s, d) <= i then Flagged(d, IndexOf(s, d)) else {};
      AllOnAtTurn(s, d, i);
      InvertTwice(s, flagged, WalkMask(d, i));
      FlagsUnseen(Inverted(s, WalkMask(d, i)), d, flagged);
    }
  }

  lemma UnsoundIsWrong(d: Wires) returns (s: State, f: int -> int)
    requires d.Valid() && !Sound(d)
    ensures d.useAncilla && Clean(s, d) && !Right(s, d, f)
  {
    var i;
    if L.Sufficient(d.states, d.anc) {
      s := WithIndex(d, d.flagInteger);
      i := HarmfulStep(s, d);
    } else {
      s, i := InsufficientStep(d);
    }
    UnfaithfulIsWrong(s, d, i);
    f := OnlyAt(StateAt(d, i));
  }

  // ---------------------------------------------------------------- repeated and spare ancillas

  /** State qubits on which an insufficient ladder fires wrongly, met at the first or the second step. */
  lemma InsufficientStep(d: Wires) returns (s: State, i: nat)
    requires d.Valid() && d.useAncilla && !L.Sufficient(d.states, d.anc)
    ensures i < Pow2(|d.states|) && Clean(s, d) && (Hit(s, d, i) <==> Turn(s, d) != i)
  {
    var u := L.FiresWrongly(d.states, d.anc);
    assert Pow2(|d.states|) >= 4 by { assert Pow2(|d.states|) == 2 * (2 * Pow2(|d.states| - 2)); }
    i := if IndexOf(Inverted(u, WalkMask(d, 0)), d) != d.flagInteger then 0 else 1;
    s := Inverted(u, WalkMask(d, i));
    if i == 1 { IndicesDiffer(d, u); }
    MaskInStates(d, i);
    InvertTwice(u, WalkMask(d, i), WalkMask(d, i));
    AllOnAtTurn(s, d, i);
    Unflagged(s, d, i, u);
  }

  lemma MaskInStates(d: Wires, i: nat)
    requires d.Valid()
    ensures forall q :: q in WalkMask(d, i) ==> q in d.states
  {}

  /** A state that is not flagged is seen as it is walked on. */
  lemma Unflagged(s: State, d: Wires, i: nat, u: State)
    requires d.Valid() && IndexOf(s, d) != d.flagInteger && u == Inverted(s, WalkMask(d, i))
    ensures Hit(s, d, i) == Fires(u, d)
  {
    assert Inverted(s, {}) == s;
  }

  /** The first two steps do not turn to the same state. */
  lemma IndicesDiffer(d: Wires, u: State)
    requires d.Valid() && |d.states| >= 2 && IndexOf(Inverted(u, WalkMask(d, 0)), d) == d.flagInteger
    ensures IndexOf(Inverted(u, WalkMask(d, 1)), d) != d.flagInteger
  {
    var n := |d.states|;
    var s, t := Inverted(u, WalkMask(d, 0)), Inverted(u, WalkMask(d, 1));
    assert Pow2(n) >= 4 by { assert Pow2(n) == 2 * (2 * Pow2(n - 2)); }
    IndexIsValue(s, d.states, d.isLSB);
    IndexIsValue(t, d.states, d.isLSB);
    if IndexOf(t, d) == IndexOf(s, d) {
      IndexInjective(Pattern(s, d.states), Pattern(t, d.states), d.isLSB);
      SamePatternSameStep(u, d, 0, 1);
    }
  }

  lemma SamePatternSameStep(u: State, d: Wires, i: nat, k: nat)
    requires d.Valid() && i < Pow2(|d.states|) && k < Pow2(|d.states|)
    requires Pattern(Inverted(u, WalkMask(d, i)), d.states) == Pattern(Inverted(u, WalkMask(d, k)), d.states)
    ensures i == k
  {
    PatternMasked(u, d, i);
    PatternMasked(u, d, k);
    assert Code(i, |d.states|) == Code(k, |d.states|);
    SameCode(d, i, k);
  }

  lemma PatternMasked(u: State, d: Wires, i: nat)
    requires d.Valid() && i < Pow2(|d.states|)
    ensures forall j :: 0 <= j < |d.states| ==>
              (Pattern(Inverted(u, WalkMask(d, i)), d.states)[j] <==> (d.states[j] in u) != Code(i, |d.states|)[j])
  {
    forall j | 0 <= j < |d.states|
      ensures d.states[j] in Inverted(u, WalkMask(d, i)) <==> (d.states[j] in u) != Code(i, |d.states|)[j]
    {
      MaskedAt(d.states, Code(i, |d.states|), j);
    }
  }

  lemma NeverHit(d: Wires, s: State, i: nat)
    requires d.Valid() && d.useAncilla && Clean(s, d) && i < Pow2(|d.states|)
    requires d.anc[|d.anc| - 1] !in d.anc[..|d.states| - 1] && d.anc[|d.anc| - 1] !in d.flags
    ensures !Hit(s, d, i)
  {
    SeenBits(s, d, i);
    assert d.anc[|d.anc| - 1] in d.anc;
    L.UpKeeps(d.states, d.anc, |d.states|, Walked(s, d, i, Turn(s, d) <= i));
  }

  /** If the last of more ancillas than the ladder needs is not one of those and no flag, no score is ever written. */
  lemma SpareAncillaLosesScores(d: Wires, s: State, f: int -> int)
    requires d.Valid() && d.useAncilla && Clean(s, d)
    requires d.anc[|d.anc| - 1] !in d.anc[..|d.states| - 1] && d.anc[|d.anc| - 1] !in d.flags
    ensures Run(EncodingGates(d, f), s) == Inverted(s, Flagged(d, IndexOf(s, d)))
  {
    forall j: nat | j < Pow2(|d.states|)
      ensures !Hit(s, d, j)
    {
      NeverHit(d, s, j);
    }
    EncodingActs(d, f, s);
    TotalOfNoHit(HitsOf(s, d), ScoresOf(d, f), Pow2(|d.states|));
    InvertTwice(Inverted(s, Flagged(d, IndexOf(s, d))), {}, {});
  }
}
