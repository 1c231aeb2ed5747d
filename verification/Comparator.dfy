/** Comparison with the best score, and its oracle. */
module Comparator {
  import opened Registers
  import opened Gates
  import opened Inverse
  import opened Footprints
  import opened AncillaLadder
  import opened BitComparison
  import C = Controls

  // ---------------------------------------------------------------- the comparator and its oracle

  /** The qubits at which the pattern is set. */
  function Chosen(reg: seq<Qubit>, pattern: seq<bool>, i: nat): seq<Qubit>
    requires i <= |reg| == |pattern|
  {
    if i == 0 then [] else Chosen(reg, pattern, i - 1) + if pattern[i - 1] then [reg[i - 1]] else []
  }

  function Load(d: Wires): seq<Gate>
    requires d.Fits()
  {
    XLayer(Chosen(d.best, d.pattern, d.N()))
  }

  /** The pattern added, modulo 2, to the best register. */
  function Loaded(s: State, d: Wires): State
    requires d.Fits()
  {
    Complement(s, Chosen(d.best, d.pattern, d.N()))
  }

  function Mark(d: Wires, flag: Qubit, controls: seq<Qubit>): seq<Gate>
    requires d.Fits()
  {
    [Controlled([d.anc[0]] + controls, [X(flag)])]
  }

  function ComparatorGates(d: Wires): seq<Gate>
    requires d.Fits()
  {
    Load(d) + Compare(d) + Load(d) + Load(d)
  }

  function OracleGates(d: Wires, flag: Qubit, controls: seq<Qubit>): seq<Gate>
    requires d.Fits()
  {
    (Load(d) + Compare(d) + Load(d)) + (Mark(d, flag, controls) + Load(d) + Uncompare(d)) + (Load(d) + Load(d))
  }

  lemma {:induction false} ChosenMembers(reg: seq<Qubit>, pattern: seq<bool>, i: nat)
    requires i <= |reg| == |pattern| && Distinct(reg)
    ensures Distinct(Chosen(reg, pattern, i))
    ensures forall q :: q in Chosen(reg, pattern, i) ==> q in reg[..i]
    ensures forall j :: 0 <= j < i ==> (reg[j] in Chosen(reg, pattern, i) <==> pattern[j])
  {
    if i > 0 {
      ChosenMembers(reg, pattern, i - 1);
      assert reg[i - 1] !in reg[..i - 1];
      assert forall q :: q in reg[..i - 1] ==> q in reg[..i];
      assert reg[..i][i - 1] == reg[i - 1];
    }
  }

  lemma LoadRuns(d: Wires, s: State)
    requires d.Valid()
    ensures Run(Load(d), s) == Loaded(s, d) && Loaded(Loaded(s, d), d) == s && AgreeOff(Loaded(s, d), s, d.best)
  {
    ChosenMembers(d.best, d.pattern, d.N());
    RunXLayer(Chosen(d.best, d.pattern, d.N()), s);
    assert d.best[..d.N()] == d.best;
  }

  /**
   * Trial is compared with what the best register holds once the pattern has been added to it. The
   * pattern is added an odd number of times: the best register does not return to its initial value.
   */
  lemma ComparatorActs(d: Wires, s: State)
    requires d.Valid() && CleanAncillas(s, d)
    ensures var s1, t := Loaded(s, d), Run(ComparatorGates(d), s);
            && AgreeOff(t, s1, d.anc)
            && (d.anc[0] in t <==> Big(s, d.trial) > Big(s1, d.best))
            && (d.anc[d.N()] in t <==> Big(s, d.trial) < Big(s1, d.best))
  {
    var s1 := Loaded(s, d);
    var u := Run(Compare(d), s1);
    LoadRuns(d, s);
    RunAround(Load(d), Compare(d), Load(d), s);
    RunConcat(Load(d) + Compare(d) + Load(d), Load(d), s);
    LoadRuns(d, u);
    LoadRuns(d, Loaded(u, d));
    CompareFinds(d, s1);
    SameTrial(d, s, s1);
  }

  lemma SameTrial(d: Wires, s: State, s1: State)
    requires d.Valid() && AgreeOff(s1, s, d.best)
    ensures Big(s1, d.trial) == Big(s, d.trial) && (CleanAncillas(s, d) ==> CleanAncillas(s1, d))
  {
    OrientedMembers(d.trial, false);
    ValAgree(s1, s, Reverse(d.trial));
  }

  /** The condition under which the oracle marks: the trial is greater and every listed control is on. */
  ghost predicate Marks(s: State, d: Wires, controls: seq<Qubit>)
    requires d.Fits()
  {
    Big(s, d.trial) > Big(Loaded(s, d), d.best) && AllOn(s, controls)
  }

  lemma MarkRuns(d: Wires, flag: Qubit, controls: seq<Qubit>, u: State)
    requires d.Fits()
    ensures Run(Mark(d, flag, controls), u) == Toggled(u, flag, d.anc[0] in u && AllOn(u, controls))
  {
    RunOne(Controlled([d.anc[0]] + controls, [X(flag)]), u);
    RunOne(X(flag), u);
    assert forall q :: q in [d.anc[0]] + controls <==> q == d.anc[0] || q in controls;
  }

  lemma FlipLoaded(d: Wires, s: State, q: Qubit)
    requires d.Valid() && q !in d.best
    ensures Loaded(Flip(s, q), d) == Flip(Loaded(s, d), q)
  {
    ChosenMembers(d.best, d.pattern, d.N());
    assert d.best[..d.N()] == d.best;
  }

  /** Between the two halves: the flag is marked on top of the comparison of the loaded state. */
  lemma MarkedHalf(d: Wires, flag: Qubit, controls: seq<Qubit>, s: State)
    requires d.Valid() && CleanAncillas(s, d)
    requires flag !in d.trial && flag !in d.best && flag !in d.anc && flag !in controls
    requires Disjoint(controls, d.best) && Disjoint(controls, d.anc)
    ensures var u := Run(Compare(d), Loaded(s, d));
            Loaded(Run(Mark(d, flag, controls), Loaded(u, d)), d) == Toggled(u, flag, Marks(s, d, controls))
  {
    var s1 := Loaded(s, d);
    var u := Run(Compare(d), s1);
    LoadRuns(d, s);
    LoadRuns(d, u);
    SameTrial(d, s, s1);
    CompareFinds(d, s1);
    MarkRuns(d, flag, controls, Loaded(u, d));
    FlipLoaded(d, Loaded(u, d), flag);
    assert d.anc[0] in d.anc;
    assert AllOn(Loaded(u, d), controls) <==> AllOn(s, controls);
  }

  /**
   * Between its two H gates the oracle inverts the flag exactly when the trial exceeds the best score and
   * all controls are on; trial and ancillas are restored. Off-controls are treated as on-controls, and
   * the pattern stays added to the best register.
   */
  lemma OracleActs(d: Wires, flag: Qubit, controls: seq<Qubit>, s: State)
    requires d.Valid() && CleanAncillas(s, d)
    requires flag !in d.trial && flag !in d.best && flag !in d.anc && flag !in controls
    requires Disjoint(controls, d.best) && Disjoint(controls, d.anc)
    ensures Run(OracleGates(d, flag, controls), s) == Toggled(Loaded(s, d), flag, Marks(s, d, controls))
  {
    var s1, c := Loaded(s, d), Marks(s, d, controls);
    var u := Run(Compare(d), s1);
    var first, second, third := Load(d) + Compare(d) + Load(d), Mark(d, flag, controls) + Load(d) + Uncompare(d), Load(d) + Load(d);
    RunAround(first, second, third, s);
    LoadRuns(d, s);
    RunAround(Load(d), Compare(d), Load(d), s);
    LoadRuns(d, u);
    RunAround(Mark(d, flag, controls), Load(d), Uncompare(d), Loaded(u, d));
    LoadRuns(d, Run(Mark(d, flag, controls), Loaded(u, d)));
    MarkedHalf(d, flag, controls, s);
    CompareInside(d, QubitSet(d.trial + d.best + d.anc));
    FlipBeside(Compare(d), s1, flag);
    UncompareUndoes(d, Toggled(s1, flag, c));
    RunConcat(Load(d), Load(d), Toggled(s1, flag, c));
    LoadRuns(d, Toggled(s1, flag, c));
    LoadRuns(d, Loaded(Toggled(s1, flag, c), d));
  }

  ghost predicate Outside(d: Wires, flag: Qubit, controls: seq<Qubit>) {
    && flag !in d.trial && flag !in d.best && flag !in d.anc && flag !in controls
    && Disjoint(controls, d.best) && Disjoint(controls, d.anc)
  }

  /** What the off-controls are for: they must be off. */
  ghost predicate Honours(d: Wires, flag: Qubit, on: seq<Qubit>, off: seq<Qubit>, s: State)
    requires d.Fits()
  {
    Run(OracleGates(d, flag, on + off), s)
      == Toggled(Loaded(s, d), flag, Big(s, d.trial) > Big(Loaded(s, d), d.best) && C.Enabled(s, on, off))
  }

  /** The oracle marks as its on- and off-controls say, on all states, only if there are no off-controls. */
  lemma OffControlsHonoured(d: Wires, flag: Qubit, on: seq<Qubit>, off: seq<Qubit>)
    requires d.Valid() && Outside(d, flag, on + off)
    ensures (forall s :: CleanAncillas(s, d) ==> Honours(d, flag, on, off, s)) <==> off == []
  {
    if off == [] {
      forall s | CleanAncillas(s, d)
        ensures Honours(d, flag, on, off, s)
      {
        OracleActs(d, flag, on + off, s);
        assert on + off == on;
      }
    } else {
      var s := AllControlsOn(d, on + off);
      OracleActs(d, flag, on + off, s);
      assert off[0] in on + off;
      assert flag in Toggled(Loaded(s, d), flag, true) <==> flag !in Loaded(s, d);
    }
  }

  /** A state that the oracle marks: the loaded best score is 0, the trial is not, and all controls are on. */
  lemma AllControlsOn(d: Wires, controls: seq<Qubit>) returns (s: State)
    requires d.Valid() && Disjoint(controls, d.best) && Disjoint(controls, d.anc)
    ensures CleanAncillas(s, d) && AllOn(s, controls) && Big(s, d.trial) > Big(Loaded(s, d), d.best)
  {
    var chosen := Chosen(d.best, d.pattern, d.N());
    s := QubitSet(chosen) + QubitSet(controls) + {d.trial[0]};
    ChosenMembers(d.best, d.pattern, d.N());
    assert d.best[..d.N()] == d.best && d.trial[0] in d.trial;
    forall j | 0 <= j < d.N()
      ensures d.best[j] !in Loaded(s, d)
    {
      assert d.best[j] in d.best;
    }
    OrientedMembers(d.best, false);
    ZeroVal(Loaded(s, d), Reverse(d.best));
    ReverseAt(d.trial);
    assert Reverse(d.trial)[d.N() - 1] == d.trial[0];
    SomeOn(s, Reverse(d.trial), d.N() - 1);
  }

  lemma {:induction false} SomeOn(s: State, reg: seq<Qubit>, j: nat)
    requires j < |reg| && reg[j] in s
    ensures Val(s, reg) > 0
  {
    if j > 0 { SomeOn(s, reg[1..], j - 1); }
  }

  ghost predicate Restored(t: State, s: State, reg: seq<Qubit>) {
    forall q :: q in reg ==> (q in t <==> q in s)
  }

  /** Comparator and oracle give the best register back only if the best score is zero. */
  lemma BestRestored(d: Wires, flag: Qubit, controls: seq<Qubit>, s: State)
    requires d.Valid() && CleanAncillas(s, d) && Outside(d, flag, controls)
    ensures Restored(Run(ComparatorGates(d), s), s, d.best) <==> forall j :: 0 <= j < d.N() ==> !d.pattern[j]
    ensures Restored(Run(OracleGates(d, flag, controls), s), s, d.best) <==> forall j :: 0 <= j < d.N() ==> !d.pattern[j]
  {
    ComparatorActs(d, s);
    OracleActs(d, flag, controls, s);
    LoadedRestored(d, s, Run(ComparatorGates(d), s));
    LoadedRestored(d, s, Run(OracleGates(d, flag, controls), s));
  }

  lemma LoadedRestored(d: Wires, s: State, t: State)
    requires d.Valid() && Restored(t, Loaded(s, d), d.best)
    ensures Restored(t, s, d.best) <==> forall j :: 0 <= j < d.N() ==> !d.pattern[j]
  {
    ChosenMembers(d.best, d.pattern, d.N());
    NoneChosen(d.best, d.pattern, d.N());
    if Restored(t, s, d.best) {
      forall j | 0 <= j < d.N()
        ensures !d.pattern[j]
      {
        assert d.best[j] in d.best;
        assert d.best[j] in Loaded(s, d) <==> d.best[j] in s;
      }
    }
  }

  lemma {:induction false} NoneChosen(reg: seq<Qubit>, pattern: seq<bool>, i: nat)
    requires i <= |reg| == |pattern|
    ensures (forall j :: 0 <= j < i ==> !pattern[j]) ==> Chosen(reg, pattern, i) == []
  {
    if i > 0 { NoneChosen(reg, pattern, i - 1); }
  }

  // ---------------------------------------------------------------- Comparator::expand

  method AddLoad(circuit: Composite, d: Wires)
    requires d.Fits()
    modifies circuit
    ensures circuit.instructions == old(circuit.instructions) + Load(d)
  {
    var chosen := [];
    for i := 0 to |d.best|
      invariant chosen == Chosen(d.best, d.pattern, i)
    {
      if d.pattern[i] {
        chosen := chosen + [d.best[i]];
      }
    }
    AddXLayer(circuit, chosen);
  }

  method AddToffolis(circuit: Composite, a: seq<Qubit>, b: seq<Qubit>, t: seq<Qubit>)
    requires |t| <= |a| && |t| <= |b|
    modifies circuit
    ensures circuit.instructions == old(circuit.instructions) + ToffoliLayer(a, b, t, |t|)
  {
    for i := 0 to |t|
      invariant circuit.instructions == old(circuit.instructions) + ToffoliLayer(a, b, t, i)
    {
      circuit.AddInstruction(Toffoli(a[i], b[i], t[i]));
    }
  }

  method AddToffolisBack(circuit: Composite, a: seq<Qubit>, b: seq<Qubit>, t: seq<Qubit>)
    requires |t| <= |a| && |t| <= |b|
    modifies circuit
    ensures circuit.instructions == old(circuit.instructions) + Reverse(ToffoliLayer(a, b, t, |t|))
  {
    ghost var whole := circuit.instructions + Reverse(ToffoliLayer(a, b, t, |t|));
    for i := |t| downto 0
      invariant circuit.instructions + Reverse(ToffoliLayer(a, b, t, i)) == whole
    {
      var g := Toffoli(a[i], b[i], t[i]);
      ReverseSnoc(ToffoliLayer(a, b, t, i), g);
      assert circuit.instructions + ([g] + Reverse(ToffoliLayer(a, b, t, i)))
          == circuit.instructions + [g] + Reverse(ToffoliLayer(a, b, t, i));
      circuit.AddInstruction(g);
    }
  }

  method AddCarry(circuit: Composite, d: Wires)
    requires d.Fits()
    modifies circuit
    ensures circuit.instructions == old(circuit.instructions) + Carry(d, 0)
  {
    var n := |d.trial|;
    ghost var before := circuit.instructions;
    for k := n - 1 downto 0
      invariant circuit.instructions == before + Carry(d, k)
    {
      PairAppended(before, d, k);
      circuit.AddInstruction(Toffoli(d.anc[k + 1], d.anc[2 * n + k], d.anc[k]));
      circuit.AddInstruction(Toffoli(d.anc[n + k + 1], d.anc[2 * n + k], d.anc[n + k]));
    }
  }

  lemma PairAppended(before: seq<Gate>, d: Wires, k: nat)
    requires d.Fits() && k < d.N() - 1
    ensures var n := d.N();
            before + Carry(d, k) + [] == before + Carry(d, k + 1)
              + [Toffoli(d.anc[k + 1], d.anc[2 * n + k], d.anc[k])] + [Toffoli(d.anc[n + k + 1], d.anc[2 * n + k], d.anc[n + k])]
    ensures before + Carry(d, k) + [] == before + Carry(d, k)
  {}

  method AddCarryBack(circuit: Composite, d: Wires)
    requires d.Fits()
    modifies circuit
    ensures circuit.instructions == old(circuit.instructions) + CarryBack(d, 0)
  {
    var n := |d.trial|;
    ghost var whole := circuit.instructions + CarryBack(d, 0);
    for j := 0 to n - 1
      invariant circuit.instructions + CarryBack(d, j) == whole
    {
      PairPrepended(circuit.instructions, d, j);
      circuit.AddInstruction(Toffoli(d.anc[j + 1], d.anc[2 * n + j], d.anc[j]));
      circuit.AddInstruction(Toffoli(d.anc[n + j + 1], d.anc[2 * n + j], d.anc[n + j]));
    }
  }

  lemma PairPrepended(emitted: seq<Gate>, d: Wires, j: nat)
    requires d.Fits() && j < d.N() - 1
    ensures var n := d.N();
            emitted + CarryBack(d, j) == emitted + [Toffoli(d.anc[j + 1], d.anc[2 * n + j], d.anc[j])]
              + [Toffoli(d.anc[n + j + 1], d.anc[2 * n + j], d.anc[n + j])] + CarryBack(d, j + 1)
  {}

  method BuildCompare(d: Wires) returns (gates: seq<Gate>)
    requires d.Fits()
    ensures gates == Compare(d)
  {
    var gt, lt, eq := d.anc[..|d.trial|], d.anc[|d.trial|..2 * |d.trial|], d.anc[2 * |d.trial|..];
    var bits := new Composite();
    AddXLayer(bits, d.best);
    AddToffolis(bits, d.trial, d.best, gt);
    AddXLayer(bits, d.best);
    ghost var none: seq<Gate> := [];
    ghost var greater, less := GreaterBits(d), LessBits(d);
    assert bits.instructions == none + XLayer(d.best) + ToffoliLayer(d.trial, d.best, gt, |gt|) + XLayer(d.best) == greater;
    AddLess(bits, d, lt);
    AddEqual(bits, d, gt, lt, eq);
    AddCarry(bits, d);
    gates := bits.instructions;
  }

  method AddLess(circuit: Composite, d: Wires, lt: seq<Qubit>)
    requires d.Fits() && lt == d.Lt()
    modifies circuit
    ensures circuit.instructions == old(circuit.instructions) + LessBits(d)
  {
    ghost var before := circuit.instructions;
    AddXLayer(circuit, d.trial);
    AddToffolis(circuit, d.trial, d.best, lt);
    AddXLayer(circuit, d.trial);
    Associate(before, XLayer(d.trial), ToffoliLayer(d.trial, d.best, lt, |lt|), XLayer(d.trial));
  }

  method AddBothInverted(circuit: Composite, d: Wires, gt: seq<Qubit>, lt: seq<Qubit>)
    requires d.Fits() && gt == d.Gt() && lt == d.Lt()
    modifies circuit
    ensures circuit.instructions == old(circuit.instructions) + BothInverted(d)
  {
    ghost var before := circuit.instructions;
    AddXLayer(circuit, gt);
    AddXLayer(circuit, lt);
    assert before + XLayer(gt) + XLayer(lt) == before + (XLayer(gt) + XLayer(lt));
  }

  method AddEqual(circuit: Composite, d: Wires, gt: seq<Qubit>, lt: seq<Qubit>, eq: seq<Qubit>)
    requires d.Fits() && gt == d.Gt() && lt == d.Lt() && eq == d.Eq()
    modifies circuit
    ensures circuit.instructions == old(circuit.instructions) + EqualBits(d)
  {
    ghost var before := circuit.instructions;
    AddBothInverted(circuit, d, gt, lt);
    AddToffolis(circuit, gt, lt, eq);
    AddBothInverted(circuit, d, gt, lt);
    Associate(before, BothInverted(d), ToffoliLayer(gt, lt, eq, |eq|), BothInverted(d));
  }

  method BuildUncompare(d: Wires) returns (gates: seq<Gate>)
    requires d.Fits()
    ensures gates == Uncompare(d)
  {
    var gt, lt, eq := d.anc[..|d.trial|], d.anc[|d.trial|..2 * |d.trial|], d.anc[2 * |d.trial|..];
    var circuit := new Composite();
    AddCarryBack(circuit, d);
    assert circuit.instructions == CarryBack(d, 0);
    AddUnEqual(circuit, d, gt, lt, eq);
    AddUnLess(circuit, d, gt, lt);
    AddUnGreater(circuit, d, gt);
    gates := circuit.instructions;
  }

  method AddUnEqual(circuit: Composite, d: Wires, gt: seq<Qubit>, lt: seq<Qubit>, eq: seq<Qubit>)
    requires d.Fits() && gt == d.Gt() && lt == d.Lt() && eq == d.Eq()
    modifies circuit
    ensures circuit.instructions == old(circuit.instructions) + UnEqual(d)
  {
    ghost var before := circuit.instructions;
    AddBothInverted(circuit, d, gt, lt);
    AddToffolisBack(circuit, gt, lt, eq);
    Associate(before, BothInverted(d), Reverse(ToffoliLayer(gt, lt, eq, |eq|)), []);
  }

  method AddUnLess(circuit: Composite, d: Wires, gt: seq<Qubit>, lt: seq<Qubit>)
    requires d.Fits() && gt == d.Gt() && lt == d.Lt()
    modifies circuit
    ensures circuit.instructions == old(circuit.instructions) + UnLess(d)
  {
    ghost var before := circuit.instructions;
    AddXLayer(circuit, d.trial);
    AddBothInverted(circuit, d, gt, lt);
    AddToffolisBack(circuit, d.trial, d.best, lt);
    Associate(before, XLayer(d.trial), BothInverted(d), Reverse(ToffoliLayer(d.trial, d.best, lt, |lt|)));
  }

  method AddUnGreater(circuit: Composite, d: Wires, gt: seq<Qubit>)
    requires d.Fits() && gt == d.Gt()
    modifies circuit
    ensures circuit.instructions == old(circuit.instructions) + UnGreater(d)
  {
    ghost var before, back := circuit.instructions, Reverse(ToffoliLayer(d.best, d.trial, gt, |gt|));
    AddXLayer(circuit, d.best);
    AddXLayer(circuit, d.trial);
    AddToffolisBack(circuit, d.best, d.trial, gt);
    AddXLayer(circuit, d.best);
    assert before + XLayer(d.best) + XLayer(d.trial) == before + (XLayer(d.best) + XLayer(d.trial));
    Associate(before, XLayer(d.best) + XLayer(d.trial), back, XLayer(d.best));
  }

  /** The comparator or its oracle for a pattern. */
  method BuildComparator(d: Wires, asOracle: bool, flag: Qubit, on: seq<Qubit>, off: seq<Qubit>) returns (gates: seq<Gate>)
    requires d.Fits()
    ensures gates == if asOracle then OracleGates(d, flag, on + off) else ComparatorGates(d)
  {
    var load := new Composite();
    AddLoad(load, d);
    var compare := BuildCompare(d);
    assert load.instructions == Load(d);
    var forward := load.instructions + compare + load.instructions;
    if asOracle {
      var mark := [Controlled([d.anc[0]] + (on + off), [X(flag)])];
      var uncompare := BuildUncompare(d);
      gates := forward + (mark + load.instructions + uncompare) + (load.instructions + load.instructions);
    } else {
      gates := forward + load.instructions;
    }
  }
}
