/** The comparison of two beams. */
module CompareBeamOracle {
  import opened Registers
  import opened Gates
  import opened Controls
  import opened ControlledSwap
  import opened GeneralisedMCX
  import E = EqualityChecker

  datatype Wires = Wires(q0: Qubit, q1: Qubit, q2: Qubit, fa: seq<Qubit>, fb: seq<Qubit>,
                         sa: seq<Qubit>, sb: seq<Qubit>, simplified: bool) {

    function PerLetter(): nat
      requires |fa| > 0
    {
      |sa| / |fa|
    }

    predicate Fits() {
      && |fa| == |fb| > 0
      && Room(|fa|, PerLetter(), |sa|)
      && (!simplified ==> Room(|fa|, PerLetter(), |sb|))
    }

    ghost predicate Valid() {
      && Fits()
      && Distinct(fa + fb) && Distinct(sb) && Disjoint(fa + fb, sa) && Disjoint(fa + fb, sb)
      && (!simplified ==> Disjoint(sa, sb))
      && q0 != q1 && q0 != q2 && q1 != q2
      && (forall q :: q == q0 || q == q1 || q == q2 ==> q !in fa && q !in fb && q !in sa && q !in sb)
    }
  }

  /** A string of the given length holds n letters. */
  predicate Room(n: nat, per: nat, length: int) {
    length >= 0 && (n == 0 || Room(n - 1, per, length - per))
  }

  lemma {:induction false} RoomIsProduct(n: nat, per: nat, length: int)
    ensures Room(n, per, length) <==> n * per <= length
  {
    if n > 0 {
      RoomIsProduct(n - 1, per, length - per);
      assert n * per == (n - 1) * per + per;
      assert (n - 1) * per >= 0;
    }
  }

  /** Consecutive letters of a string, each of the same length. */
  function Letter(text: seq<Qubit>, per: nat, n: nat, i: nat): (letter: seq<Qubit>)
    requires Room(n, per, |text|) && i < n
    ensures |letter| == per && forall q :: q in letter ==> q in text
    ensures Distinct(text) ==> Distinct(letter)
  {
    RoomIsProduct(n, per, |text|);
    MulMonotone(per, i + 1, n);
    text[i * per..i * per + per]
  }

  function LetterA(d: Wires, i: nat): (letter: seq<Qubit>)
    requires d.Fits() && i < |d.fa|
    ensures |letter| == d.PerLetter()
  {
    Letter(d.sa, d.PerLetter(), |d.fa|, i)
  }

  function LetterB(d: Wires, i: nat): (letter: seq<Qubit>)
    requires d.Fits() && !d.simplified && i < |d.fa|
    ensures |letter| == d.PerLetter()
  {
    Letter(d.sb, d.PerLetter(), |d.fa|, i)
  }

  /** Letter i is all ones, or the same in both strings. */
  ghost predicate LetterMatches(s: State, d: Wires, i: nat)
    requires d.Fits() && i < |d.fa|
  {
    if d.simplified then AllOn(s, LetterA(d, i)) else Val(s, LetterA(d, i)) == Val(s, LetterB(d, i))
  }

  /** The i-th flag is inverted: its letter is not finished and matches. */
  ghost predicate Marks(s: State, d: Wires, i: nat)
    requires d.Fits() && i < |d.fa|
  {
    d.fa[i] !in s && LetterMatches(s, d, i)
  }

  function LetterGates(d: Wires, i: nat): seq<Gate>
    requires d.Fits() && i < |d.fa|
  {
    if d.simplified then MCXGates(d.fb[i], LetterA(d, i), [d.fa[i]])
    else E.EqualityGates(LetterA(d, i), LetterB(d, i), d.fb[i], [], [d.fa[i]], [], false)
  }

  function MarkGates(d: Wires, i: nat): seq<Gate>
    requires d.Fits() && i <= |d.fa|
  {
    if i == 0 then [] else MarkGates(d, i - 1) + LetterGates(d, i - 1)
  }

  // ---------------------------------------------------------------- marking the letters

  lemma LetterApart(d: Wires, i: nat)
    requires d.Valid() && i < |d.fa|
    ensures d.fa[i] in d.fa && d.fb[i] in d.fb && d.fa[i] != d.fb[i]
    ensures d.fb[i] !in d.fa && forall q :: q in LetterA(d, i) ==> q in d.sa
    ensures !d.simplified ==> Distinct(LetterB(d, i)) && Disjoint(LetterA(d, i), LetterB(d, i))
    ensures !d.simplified ==> forall q :: q in LetterB(d, i) ==> q in d.sb
  {
    FlagsApart(d.fa, d.fb, i);
  }

  lemma FlagsApart(fa: seq<Qubit>, fb: seq<Qubit>, i: nat)
    requires Distinct(fa + fb) && i < |fb|
    ensures fb[i] !in fa && forall k :: 0 <= k < |fb| && k != i ==> fb[k] != fb[i]
  {
    var all := fa + fb;
    assert all[|fa| + i] == fb[i];
    forall k | 0 <= k < |fa|
      ensures fa[k] != fb[i]
    {
      assert all[k] == fa[k];
    }
    forall k | 0 <= k < |fb| && k != i
      ensures fb[k] != fb[i]
    {
      assert all[|fa| + k] == fb[k];
    }
  }

  lemma LetterGatesMark(d: Wires, i: nat, s: State)
    requires d.Valid() && i < |d.fa|
    ensures Run(LetterGates(d, i), s) == Toggled(s, d.fb[i], Marks(s, d, i))
  {
    LetterApart(d, i);
    var a, f, off := LetterA(d, i), d.fb[i], [d.fa[i]];
    assert forall q :: q in off <==> q == d.fa[i];
    assert d.fa[i] in d.fa + d.fb && f in d.fa + d.fb;
    if d.simplified {
      MCXFlips(f, a, off, s);
    } else {
      E.EqualityActs(a, LetterB(d, i), f, [], off, [], false, s);
    }
  }

  /** s with the flags of the marked letters below i inverted. */
  ghost predicate Marked(s: State, t: State, d: Wires, i: nat)
    requires d.Fits() && i <= |d.fa|
  {
    && AgreeOff(t, s, d.fb)
    && forall k :: 0 <= k < |d.fb| ==> (d.fb[k] in t <==> (d.fb[k] in s) != (k < i && Marks(s, d, k)))
  }

  /** Marks depend on the finished flags and the letters, none of which marking changes. */
  lemma MarksAgree(s: State, t: State, d: Wires, i: nat)
    requires d.Valid() && i < |d.fa| && forall q :: q in d.fa || q in d.sa || q in d.sb ==> (q in s <==> q in t)
    ensures Marks(s, d, i) <==> Marks(t, d, i)
  {
    LetterApart(d, i);
    ValAgree(s, t, LetterA(d, i));
    if !d.simplified { ValAgree(s, t, LetterB(d, i)); }
  }

  lemma FlagsOutside(d: Wires)
    requires d.Valid()
    ensures forall q :: q in d.fa || q in d.sa || q in d.sb ==> q !in d.fb
  {
    forall k | 0 <= k < |d.fb|
      ensures d.fb[k] !in d.fa && d.fb[k] !in d.sa && d.fb[k] !in d.sb
    {
      FlagsApart(d.fa, d.fb, k);
      assert d.fb[k] in d.fa + d.fb;
    }
  }

  lemma MarkedSnoc(d: Wires, i: nat, s: State, t: State, u: State)
    requires d.Valid() && i < |d.fa| && Marked(s, t, d, i) && u == Toggled(t, d.fb[i], Marks(s, d, i))
    ensures Marked(s, u, d, i + 1)
  {
    FlagsApart(d.fa, d.fb, i);
    assert d.fb[i] in d.fb;
    forall k | 0 <= k < |d.fb|
      ensures d.fb[k] in u <==> (d.fb[k] in s) != (k < i + 1 && Marks(s, d, k))
    {
      assert k == i || d.fb[k] != d.fb[i];
    }
  }

  lemma {:induction false} MarkGatesMark(d: Wires, i: nat, s: State)
    requires d.Valid() && i <= |d.fa|
    ensures Marked(s, Run(MarkGates(d, i), s), d, i)
  {
    if i > 0 {
      MarkGatesMark(d, i - 1, s);
      LetterMarked(d, i - 1, s, MarkGates(d, i - 1), LetterGates(d, i - 1));
    }
  }

  lemma LetterMarked(d: Wires, i: nat, s: State, gates: seq<Gate>, letter: seq<Gate>)
    requires d.Valid() && i < |d.fa| && Marked(s, Run(gates, s), d, i) && letter == LetterGates(d, i)
    ensures Marked(s, Run(gates + letter, s), d, i + 1)
  {
    RunConcat(gates, letter, s);
    NextMarked(d, i, s, Run(gates, s), Run(letter, Run(gates, s)));
  }

  lemma NextMarked(d: Wires, i: nat, s: State, t: State, u: State)
    requires d.Valid() && i < |d.fa| && Marked(s, t, d, i) && u == Run(LetterGates(d, i), t)
    ensures Marked(s, u, d, i + 1)
  {
    LetterGatesMark(d, i, t);
    FlagsOutside(d);
    MarksAgree(s, t, d, i);
    MarkedSnoc(d, i, s, t, u);
  }

  /** Marking is undone by marking again, whatever has been done to other qubits in between. */
  lemma MarkTwice(d: Wires, s: State, t: State, u: State, v: State)
    requires d.Valid() && Marked(s, t, d, |d.fa|) && Marked(u, v, d, |d.fa|)
    requires forall q :: q in d.fa || q in d.sa || q in d.sb || q in d.fb ==> (q in u <==> q in t)
    ensures forall q :: q in d.fb ==> (q in v <==> q in s)
  {
    FlagsOutside(d);
    forall k | 0 <= k < |d.fb|
      ensures d.fb[k] in v <==> d.fb[k] in s
    {
      assert d.fb[k] in d.fb;
      MarksAgree(s, u, d, k);
    }
  }

  // ---------------------------------------------------------------- the oracle

  /** q1 is inverted when the flag strings are equal. */
  function FlagCheck(d: Wires): seq<Gate>
    requires d.Fits()
  {
    CXLayer(d.fa, d.fb) + MCXGates(d.q1, [], d.fb) + CXLayer(d.fa, d.fb)
  }

  /** q2 is inverted when every letter is finished or matches. */
  function LetterCheck(d: Wires): seq<Gate>
    requires d.Fits()
  {
    MarkGates(d, |d.fa|) + MCXGates(d.q2, d.fb, []) + MarkGates(d, |d.fa|)
  }

  function OracleGates(d: Wires): seq<Gate>
    requires d.Fits()
  {
    FlagCheck(d) + LetterCheck(d) + [Controlled([d.q1, d.q2], [X(d.q0)])]
  }

  lemma CXLayerFlip(a: seq<Qubit>, b: seq<Qubit>, q: Qubit, s: State)
    requires |a| == |b| && Distinct(b) && Disjoint(a, b) && q !in a && q !in b
    ensures Run(CXLayer(a, b), Flip(s, q)) == Flip(Run(CXLayer(a, b), s), q)
  {
    var x, y := Run(CXLayer(a, b), Flip(s, q)), Flip(Run(CXLayer(a, b), s), q);
    RunCXLayer(a, b, s);
    RunCXLayer(a, b, Flip(s, q));
    forall r
      ensures r in x <==> r in y
    {
      if r in b {
        var k :| 0 <= k < |b| && b[k] == r;
        assert a[k] in a;
      }
    }
  }

  lemma FlagStringsApart(d: Wires)
    requires d.Valid()
    ensures Distinct(d.fb) && Disjoint(d.fa, d.fb)
  {
    forall i | 0 <= i < |d.fb|
      ensures d.fb[i] !in d.fa && forall k :: 0 <= k < |d.fb| && k != i ==> d.fb[k] != d.fb[i]
    {
      FlagsApart(d.fa, d.fb, i);
    }
  }

  lemma FlagCheckActs(d: Wires, s: State)
    requires d.Valid()
    ensures Run(FlagCheck(d), s) == Toggled(s, d.q1, E.Equal(s, d.fa, d.fb))
  {
    var copy := CXLayer(d.fa, d.fb);
    var t := Run(copy, s);
    FlagStringsApart(d);
    RunAround(copy, MCXGates(d.q1, [], d.fb), copy, s);
    RunCXLayer(d.fa, d.fb, s);
    MCXFlips(d.q1, [], d.fb, t);
    assert Enabled(t, [], d.fb) <==> E.Equal(s, d.fa, d.fb) by {
      assert forall k :: 0 <= k < |d.fb| ==> d.fb[k] in d.fb;
    }
    CXLayerTwice(d.fa, d.fb, s);
    CXLayerFlip(d.fa, d.fb, d.q1, t);
  }

  /** Every flag of fb is on once the letters have been marked. */
  ghost predicate AllMarked(s: State, d: Wires)
    requires d.Fits()
  {
    forall k :: 0 <= k < |d.fb| ==> ((d.fb[k] in s) != Marks(s, d, k))
  }

  lemma LetterCheckActs(d: Wires, s: State)
    requires d.Valid()
    ensures Run(LetterCheck(d), s) == Toggled(s, d.q2, AllMarked(s, d))
  {
    var mark := MarkGates(d, |d.fa|);
    var t := Run(mark, s);
    var u := Run(MCXGates(d.q2, d.fb, []), t);
    var v := Run(mark, u);
    RunAround(mark, MCXGates(d.q2, d.fb, []), mark, s);
    MarkGatesMark(d, |d.fa|, s);
    MarkGatesMark(d, |d.fa|, u);
    FlagStringsApart(d);
    MCXFlips(d.q2, d.fb, [], t);
    assert Enabled(t, d.fb, []) <==> AllMarked(s, d) by {
      assert forall k :: 0 <= k < |d.fb| ==> d.fb[k] in d.fb;
    }
    MarkTwice(d, s, t, u, v);
    var w := Toggled(s, d.q2, AllMarked(s, d));
    forall q
      ensures q in v <==> q in w
    {
      if q !in d.fb {
        assert q in v <==> q in u;
        assert q in t <==> q in s;
      }
    }
  }

  /** The condition the oracle stands for. */
  ghost predicate Accepts(s: State, d: Wires)
    requires d.Fits()
  {
    && E.Equal(s, d.fa, d.fb)
    && forall i :: 0 <= i < |d.fa| ==> d.fa[i] in s || LetterMatches(s, d, i)
  }

  lemma AllMarkedMeans(s: State, d: Wires)
    requires d.Fits() && E.Equal(s, d.fa, d.fb)
    ensures AllMarked(s, d) <==> forall i :: 0 <= i < |d.fa| ==> d.fa[i] in s || LetterMatches(s, d, i)
  {
    forall i | 0 <= i < |d.fa|
      ensures ((d.fb[i] in s) != Marks(s, d, i)) <==> d.fa[i] in s || LetterMatches(s, d, i)
    {
      assert d.fa[i] in s <==> d.fb[i] in s;
    }
  }

  /**
   * The whole effect: q1 is inverted when the flag strings are equal, q2 when all letters come out
   * marked, then q0 when q1 and q2 are both on. Flag strings and letters are restored.
   */
  lemma OracleActs(d: Wires, s: State)
    requires d.Valid()
    ensures var s1 := Toggled(s, d.q1, E.Equal(s, d.fa, d.fb));
            var s2 := Toggled(s1, d.q2, AllMarked(s, d));
            Run(OracleGates(d), s) == Toggled(s2, d.q0, d.q1 in s2 && d.q2 in s2)
  {
    var s1 := Toggled(s, d.q1, E.Equal(s, d.fa, d.fb));
    var s2 := Toggled(s1, d.q2, AllMarked(s, d));
    var toffoli := Controlled([d.q1, d.q2], [X(d.q0)]);
    RunAround(FlagCheck(d), LetterCheck(d), [toffoli], s);
    FlagCheckActs(d, s);
    LetterCheckActs(d, s1);
    AllMarkedAgrees(d, s, s1);
    RunOne(toffoli, s2);
    RunOne(X(d.q0), s2);
    assert AllOn(s2, [d.q1, d.q2]) <==> d.q1 in s2 && d.q2 in s2 by {
      assert [d.q1, d.q2][0] == d.q1 && [d.q1, d.q2][1] == d.q2;
    }
  }

  lemma AllMarkedAgrees(d: Wires, s: State, t: State)
    requires d.Valid() && t == Toggled(s, d.q1, E.Equal(s, d.fa, d.fb))
    ensures AllMarked(s, d) <==> AllMarked(t, d)
  {
    forall k | 0 <= k < |d.fb|
      ensures (d.fb[k] in s <==> d.fb[k] in t) && (Marks(s, d, k) <==> Marks(t, d, k))
    {
      assert d.fb[k] in d.fb;
      MarksAgree(s, t, d, k);
    }
  }

  // ---------------------------------------------------------------- the condition by positions

  /** Letter i of a string is the qubits whose position, divided by the length of a letter, is i. */
  lemma LetterAt(text: seq<Qubit>, per: nat, n: nat, i: nat)
    requires Room(n, per, |text|) && i < n
    ensures i * per + per <= |text| && Letter(text, per, n, i) == text[i * per..i * per + per]
  {
    RoomIsProduct(n, per, |text|);
    MulMonotone(per, i + 1, n);
  }

  /** The first k letters of a string in order. */
  function Letters(text: seq<Qubit>, per: nat, n: nat, k: nat): seq<Qubit>
    requires Room(n, per, |text|) && k <= n
  {
    if k == 0 then [] else Letters(text, per, n, k - 1) + Letter(text, per, n, k - 1)
  }

  /** The letters follow one another from the first qubit on. */
  lemma {:induction false} LettersTile(text: seq<Qubit>, per: nat, n: nat, k: nat)
    requires Room(n, per, |text|) && k <= n
    ensures k * per <= |text| && Letters(text, per, n, k) == text[..k * per]
  {
    if k > 0 {
      LettersTile(text, per, n, k - 1);
      LetterAt(text, per, n, k - 1);
      assert k * per == (k - 1) * per + per;
    }
  }

  /** The per qubits from position i * per on: all on, or the same as those at this place of the other string. */
  ghost predicate MatchesAt(s: State, sa: seq<Qubit>, sb: seq<Qubit>, simplified: bool, per: nat, i: nat) {
    MulMonotone(per, 0, i);
    var from := i * per;
    && from + per <= |sa|
    && if simplified then AllOn(s, sa[from..from + per])
       else from + per <= |sb| && Val(s, sa[from..from + per]) == Val(s, sb[from..from + per])
  }

  /** The flag strings hold the same, and every letter is finished or matches. */
  ghost predicate Matches(s: State, fa: seq<Qubit>, fb: seq<Qubit>, sa: seq<Qubit>, sb: seq<Qubit>, simplified: bool)
    requires 0 < |fa| == |fb|
  {
    && Val(s, fa) == Val(s, fb)
    && forall i :: 0 <= i < |fa| ==> fa[i] in s || MatchesAt(s, sa, sb, simplified, |sa| / |fa|, i)
  }

  lemma LettersMatch(s: State, d: Wires, i: nat)
    requires d.Fits() && i < |d.fa|
    ensures LetterMatches(s, d, i) <==> MatchesAt(s, d.sa, d.sb, d.simplified, |d.sa| / |d.fa|, i)
  {
    LetterAt(d.sa, d.PerLetter(), |d.fa|, i);
    if !d.simplified { LetterAt(d.sb, d.PerLetter(), |d.fa|, i); }
  }

  lemma AcceptsMatches(s: State, d: Wires)
    requires d.Fits()
    ensures Accepts(s, d) <==> Matches(s, d.fa, d.fb, d.sa, d.sb, d.simplified)
  {
    E.EqualIsSameValue(s, d.fa, d.fb);
    forall i | 0 <= i < |d.fa|
      ensures LetterMatches(s, d, i) <==> MatchesAt(s, d.sa, d.sb, d.simplified, |d.sa| / |d.fa|, i)
    {
      LettersMatch(s, d, i);
    }
  }

  /**
   * With q1 and q2 clean, q0 is inverted exactly when the flag strings and the letters match; q1 and q2 keep the
   * two partial answers.
   */
  lemma OracleMarks(d: Wires, s: State)
    requires d.Valid() && d.q1 !in s && d.q2 !in s
    ensures var t := Run(OracleGates(d), s);
            && ((d.q0 in t) == ((d.q0 in s) != Matches(s, d.fa, d.fb, d.sa, d.sb, d.simplified)))
            && (d.q1 in t <==> E.Equal(s, d.fa, d.fb)) && (d.q2 in t <==> AllMarked(s, d))
            && forall q :: q != d.q0 && q != d.q1 && q != d.q2 ==> (q in t <==> q in s)
  {
    OracleActs(d, s);
    AcceptsMatches(s, d);
    if E.Equal(s, d.fa, d.fb) { AllMarkedMeans(s, d); }
  }

  // ---------------------------------------------------------------- CompareBeamOracle::expand

  method GatherLetter(text: seq<Qubit>, per: nat, n: nat, i: nat) returns (letter: seq<Qubit>)
    requires Room(n, per, |text|) && i < n
    ensures letter == Letter(text, per, n, i)
  {
    RoomIsProduct(n, per, |text|);
    MulMonotone(per, i + 1, n);
    letter := CopySlice(text, i * per, per);
  }

  method BuildLetterGates(d: Wires, i: nat) returns (gates: seq<Gate>)
    requires d.Fits() && i < |d.fa|
    ensures gates == LetterGates(d, i)
  {
    var per := |d.sa| / |d.fa|;
    var letterA := GatherLetter(d.sa, per, |d.fa|, i);
    if d.simplified {
      gates := BuildMCX(d.fb[i], letterA, [d.fa[i]]);
    } else {
      var letterB := GatherLetter(d.sb, per, |d.fa|, i);
      gates := BuildEquality(letterA, letterB, d.fb[i], [d.fa[i]]);
    }
  }

  method BuildMCX(target: Qubit, on: seq<Qubit>, off: seq<Qubit>) returns (gates: seq<Gate>)
    ensures gates == MCXGates(target, on, off)
  {
    var mcx := new Composite();
    ExpandGeneralisedMCX(mcx, target, on, off);
    gates := mcx.instructions;
    FromEmpty(MCXGates(target, on, off), gates);
  }

  method BuildEquality(a: seq<Qubit>, b: seq<Qubit>, flag: Qubit, off: seq<Qubit>) returns (gates: seq<Gate>)
    requires |a| == |b|
    ensures gates == E.EqualityGates(a, b, flag, [], off, [], false)
  {
    var eq := new Composite();
    E.ExpandEqualityChecker(eq, a, b, flag, [], off, [], false);
    gates := eq.instructions;
    FromEmpty(E.EqualityGates(a, b, flag, [], off, [], false), gates);
  }

  lemma FromEmpty(added: seq<Gate>, gates: seq<Gate>)
    requires gates == [] + added
    ensures gates == added
  {}

  method AddMarkGates(circuit: Composite, d: Wires)
    requires d.Fits()
    modifies circuit
    ensures circuit.instructions == old(circuit.instructions) + MarkGates(d, |d.fa|)
  {
    var gates := BuildMarkGates(d);
    circuit.AddInstructions(gates);
  }

  method BuildMarkGates(d: Wires) returns (gates: seq<Gate>)
    requires d.Fits()
    ensures gates == MarkGates(d, |d.fa|)
  {
    gates := [];
    for i := 0 to |d.fa|
      invariant gates == MarkGates(d, i)
    {
      var letter := BuildLetterGates(d, i);
      gates := gates + letter;
    }
  }

  method ExpandCompareBeamOracle(circuit: Composite, d: Wires)
    requires d.Fits()
    modifies circuit
    ensures circuit.instructions == old(circuit.instructions) + OracleGates(d)
  {
    ghost var before := circuit.instructions;
    AddCXLayer(circuit, d.fa, d.fb);
    ExpandGeneralisedMCX(circuit, d.q1, [], d.fb);
    AddCXLayer(circuit, d.fa, d.fb);
    assert circuit.instructions == before + FlagCheck(d);
    AddLetterCheck(circuit, d);
    circuit.AddInstruction(Controlled([d.q1, d.q2], [X(d.q0)]));
    Associate(before, FlagCheck(d), LetterCheck(d), [Controlled([d.q1, d.q2], [X(d.q0)])]);
  }

  method AddLetterCheck(circuit: Composite, d: Wires)
    requires d.Fits()
    modifies circuit
    ensures circuit.instructions == old(circuit.instructions) + LetterCheck(d)
  {
    ghost var before := circuit.instructions;
    AddMarkGates(circuit, d);
    ExpandGeneralisedMCX(circuit, d.q2, d.fb, []);
    AddMarkGates(circuit, d);
    Associate(before, MarkGates(d, |d.fa|), MCXGates(d.q2, d.fb, []), MarkGates(d, |d.fa|));
  }
}
