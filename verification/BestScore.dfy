/** The comparator's best score. */
module BestScore {
  import opened Registers
  import opened Gates
  import opened BitComparison
  import opened Comparator

  /** The four characters of std::bitset<sizeof(int)>. */
  function Text(score: nat): (text: seq<bool>)
    ensures |text| == 4
  {
    [score / 8 % 2 == 1, score / 4 % 2 == 1, score / 2 % 2 == 1, score % 2 == 1]
  }

  /** The last n of them, or all if there are fewer. */
  function TextOf(score: nat, n: nat): seq<bool> {
    Text(score)[if 4 < n then 0 else 4 - n..]
  }

  /** Where the text has a one; past its end there is none. */
  function Encoded(score: nat, n: nat): (pattern: seq<bool>)
    ensures |pattern| == n
  {
    seq(n, i requires 0 <= i < n => i < |TextOf(score, n)| && TextOf(score, n)[i])
  }

  function WiresFor(trial: seq<Qubit>, best: seq<Qubit>, anc: seq<Qubit>, score: nat, isLSB: bool): Wires {
    Wires(if isLSB then Reverse(trial) else trial, best, anc, Encoded(score, |trial|))
  }

  // ---------------------------------------------------------------- the number that is written

  /** The number of a pattern that starts with the highest digit. */
  function Value(pattern: seq<bool>): (v: nat)
    ensures v < Pow2(|pattern|)
  {
    if pattern == [] then 0
    else 2 * Value(pattern[..|pattern| - 1]) + if pattern[|pattern| - 1] then 1 else 0
  }

  lemma ValueSnoc(pattern: seq<bool>, bit: bool)
    ensures Value(pattern + [bit]) == 2 * Value(pattern) + if bit then 1 else 0
  {
    assert (pattern + [bit])[..|pattern|] == pattern;
  }

  function Bit01(bit: bool): nat {
    if bit then 1 else 0
  }

  lemma ValueOfTwo(a: bool, b: bool)
    ensures Value([a]) == Bit01(a) && Value([a, b]) == 2 * Bit01(a) + Bit01(b)
  {
    assert [a] == [] + [a] && [a, b] == [a] + [b];
    ValueSnoc([], a);
    ValueSnoc([a], b);
  }

  lemma ValueOfThree(a: bool, b: bool, c: bool)
    ensures Value([a, b, c]) == 4 * Bit01(a) + 2 * Bit01(b) + Bit01(c)
  {
    assert [a, b, c] == [a, b] + [c];
    ValueOfTwo(a, b);
    ValueSnoc([a, b], c);
  }

  lemma ValueOfFour(a: bool, b: bool, c: bool, d: bool)
    ensures Value([a, b, c, d]) == 8 * Bit01(a) + 4 * Bit01(b) + 2 * Bit01(c) + Bit01(d)
  {
    assert [a, b, c, d] == [a, b, c] + [d];
    ValueOfThree(a, b, c);
    ValueSnoc([a, b, c], d);
  }

  lemma TwoDigits(v: nat)
    ensures 2 * (v / 2 % 2) + v % 2 == v % 4
  {}

  lemma ThreeDigits(v: nat)
    ensures 4 * (v / 4 % 2) + v % 4 == v % 8
  {}

  lemma HighestDigit(v: nat)
    ensures 8 * (v / 8 % 2) + v % 8 == v % 16
  {}

  lemma FourDigits(score: nat)
    ensures Value(Text(score)) == score % 16
    ensures Value(Text(score)[1..]) == score % 8 && Value(Text(score)[2..]) == score % 4 && Value(Text(score)[3..]) == score % 2
  {
    var a, b, c, d := score / 8 % 2 == 1, score / 4 % 2 == 1, score / 2 % 2 == 1, score % 2 == 1;
    ValueOfTwo(d, d);
    ValueOfTwo(c, d);
    ValueOfThree(b, c, d);
    ValueOfFour(a, b, c, d);
    TwoDigits(score);
    ThreeDigits(score);
    HighestDigit(score);
    assert Text(score)[1..] == [b, c, d] && Text(score)[2..] == [c, d] && Text(score)[3..] == [d];
  }

  lemma EncodedIsText(score: nat, n: nat)
    ensures n <= 4 ==> Encoded(score, n) == Text(score)[4 - n..]
    ensures n > 4 ==> Encoded(score, n) == Encoded(score, n - 1) + [false]
  {
    assert n >= 4 ==> TextOf(score, n) == Text(score);
    assert n >= 5 ==> TextOf(score, n - 1) == Text(score);
    assert n <= 4 ==> TextOf(score, n) == Text(score)[4 - n..];
  }

  /** Up to four qubits hold the score modulo 2^n. More hold its last four digits, moved up to the highest places. */
  function WrittenScore(score: nat, n: nat): nat {
    if n <= 4 then score % Pow2(n) else score % 16 * Pow2(n - 4)
  }

  lemma {:induction false} EncodedValue(score: nat, n: nat)
    requires n >= 1
    ensures Value(Encoded(score, n)) == WrittenScore(score, n)
  {
    if n <= 4 {
      FourDigits(score);
      EncodedIsText(score, n);
      assert Text(score)[0..] == Text(score);
      SmallPowers();
    } else {
      EncodedValue(score, n - 1);
      EncodedIsText(score, n);
      ValueSnoc(Encoded(score, n - 1), false);
      MovedUp(score % 16, n - 4);
      SmallPowers();
    }
  }

  lemma SmallPowers()
    ensures Pow2(0) == 1 && Pow2(1) == 2 && Pow2(2) == 4 && Pow2(3) == 8 && Pow2(4) == 16
  {}

  lemma MovedUp(digits: nat, k: nat)
    requires k >= 1
    ensures 2 * (digits * Pow2(k - 1)) == digits * Pow2(k)
  {
    assert 2 * (digits * Pow2(k - 1)) == digits * (2 * Pow2(k - 1));
  }

  /** The score itself is written exactly when it is zero, or when n is at most four and the score fits. */
  lemma EncodedExact(score: nat, n: nat)
    requires n >= 1
    ensures Value(Encoded(score, n)) == score <==> score == 0 || (n <= 4 && score < Pow2(n))
  {
    EncodedValue(score, n);
    if n <= 4 {
      ValueOfSmall(score, Pow2(n));
    } else {
      MovedUpNotKept(score, n - 4, WrittenScore(score, n));
    }
  }

  lemma ValueOfSmall(v: nat, m: nat)
    requires m > 0
    ensures v % m == v <==> v < m
  {
    if v < m { ModUnique(v, m, 0, v); }
  }

  /** Digits that are moved up are the same number only if they are all zero. */
  lemma MovedUpNotKept(score: nat, k: nat, moved: nat)
    requires k >= 1 && moved == score % 16 * Pow2(k)
    ensures moved == score <==> score == 0
  {
    MovedUp(score % 16, k);
    if moved == score { OddFactor(score % 16, Pow2(k - 1), score / 16); }
  }

  /** 16 q + d is twice a multiple of d only if both are zero. */
  lemma OddFactor(d: nat, half: nat, q: nat)
    requires d < 16 && 2 * (d * half) == 16 * q + d
    ensures d == 0 && q == 0
  {
    var r := half % 8;
    assert d * half == 8 * (d * (half / 8)) + d * r by {
      assert half == 8 * (half / 8) + r;
    }
    OddDigits(d, r, 2 * (d * r), d * (half / 8), q);
  }

  lemma OddDigits(d: nat, r: nat, twice: nat, high: nat, q: nat)
    requires d < 16 && r < 8 && twice == 2 * (d * r) && 16 * high + twice == 16 * q + d
    ensures d == 0
  {
    assert d != 0 ==> (if r == 0 then 0 else if r == 1 then 2 * d else if r == 2 then 4 * d else if r == 3 then 6 * d
                       else if r == 4 then 8 * d else if r == 5 then 10 * d else if r == 6 then 12 * d else 14 * d) == twice;
  }

  // ---------------------------------------------------------------- the comparison with the score

  lemma {:induction false} BigIsValue(s: State, reg: seq<Qubit>, pattern: seq<bool>)
    requires |reg| == |pattern| && forall j :: 0 <= j < |reg| ==> (reg[j] in s <==> pattern[j])
    ensures Big(s, reg) == Value(pattern)
  {
    if reg != [] {
      var m := |reg| - 1;
      assert reg == reg[..m] + [reg[m]];
      ReverseSnoc(reg[..m], reg[m]);
      BigIsValue(s, reg[..m], pattern[..m]);
    }
  }

  ghost predicate Clean(s: State, d: Wires) {
    CleanAncillas(s, d) && forall q :: q in d.best ==> q !in s
  }

  lemma LoadedValue(d: Wires, s: State)
    requires d.Valid() && Clean(s, d)
    ensures Big(Loaded(s, d), d.best) == Value(d.pattern)
  {
    ChosenMembers(d.best, d.pattern, d.N());
    forall j | 0 <= j < d.N()
      ensures d.best[j] in Loaded(s, d) <==> d.pattern[j]
    {
      assert d.best[j] in d.best;
    }
    BigIsValue(Loaded(s, d), d.best, d.pattern);
  }

  /** From clean registers the trial is compared with the number of the pattern, which the best register ends with. */
  lemma ComparesValue(d: Wires, s: State)
    requires d.Valid() && Clean(s, d)
    ensures var t, v := Run(ComparatorGates(d), s), Value(d.pattern);
            && (d.anc[0] in t <==> Big(s, d.trial) > v) && (d.anc[d.N()] in t <==> Big(s, d.trial) < v)
            && Big(t, d.best) == v
  {
    var t := Run(ComparatorGates(d), s);
    ComparatorActs(d, s);
    LoadedValue(d, s);
    OrientedMembers(d.best, false);
    ValAgree(t, Loaded(s, d), Reverse(d.best));
  }

  /** Both outcome qubits tell how the trial compares with the score. */
  ghost predicate Tells(t: State, s: State, d: Wires, score: nat)
    requires d.Fits()
  {
    (d.anc[0] in t <==> Big(s, d.trial) > score) && (d.anc[d.N()] in t <==> Big(s, d.trial) < score)
  }

  /**
   * The comparator compares with the score it is given, on all states with clean registers, exactly when the
   * score is zero, or when there are at most four scoring qubits and the score fits in them.
   */
  lemma ComparesScore(d: Wires, score: nat)
    requires d.Valid() && d.pattern == Encoded(score, d.N())
    ensures (forall s :: Clean(s, d) ==> Tells(Run(ComparatorGates(d), s), s, d, score))
              <==> score == 0 || (d.N() <= 4 && score < Pow2(d.N()))
  {
    var v := Value(d.pattern);
    EncodedExact(score, d.N());
    if v == score {
      forall s | Clean(s, d)
        ensures Tells(Run(ComparatorGates(d), s), s, d, score)
      {
        ComparesValue(d, s);
      }
    } else {
      var s := TrialHolds(d, v);
      ComparesValue(d, s);
      assert !Tells(Run(ComparatorGates(d), s), s, d, score);
    }
  }

  lemma TrialHolds(d: Wires, v: nat) returns (s: State)
    requires d.Valid() && v < Pow2(d.N())
    ensures Clean(s, d) && Big(s, d.trial) == v
  {
    OrientedMembers(d.trial, false);
    s := Write({}, Reverse(d.trial), v);
    ReadBack({}, Reverse(d.trial), v);
  }

  /** A score of 3 in five qubits is written as 6, so that a trial of 4 is found to be less. */
  lemma ThreeInFive(d: Wires, s: State)
    requires d.Valid() && d.N() == 5 && d.pattern == Encoded(3, 5) && Clean(s, d) && Big(s, d.trial) == 4
    ensures d.anc[5] in Run(ComparatorGates(d), s) && d.anc[0] !in Run(ComparatorGates(d), s)
  {
    ComparesValue(d, s);
    EncodedValue(3, 5);
    SmallPowers();
  }

  // ---------------------------------------------------------------- Comparator::expand

  /** The comparator, or its oracle without the X and H gates on the flag that turn marking into a phase. */
  method ExpandComparator(trial: seq<Qubit>, best: seq<Qubit>, anc: seq<Qubit>, score: nat, isLSB: bool, asOracle: bool,
                          flag: Qubit, on: seq<Qubit>, off: seq<Qubit>) returns (gates: seq<Gate>)
    requires |trial| == |best| >= 1 && |anc| == 3 * |trial| - 1
    ensures var d := WiresFor(trial, best, anc, score, isLSB);
            gates == if asOracle then OracleGates(d, flag, on + off) else ComparatorGates(d)
  {
    var trial' := trial;
    if isLSB { trial' := Reverse(trial); }
    gates := BuildComparator(Wires(trial', best, anc, Encoded(score, |trial|)), asOracle, flag, on, off);
  }
}
