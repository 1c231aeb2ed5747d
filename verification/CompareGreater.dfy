/** Greater-than comparison by adding a complement and undoing it with a second adder. */
module CompareGreater {
  import opened Registers
  import opened Gates
  import opened RippleAdder

  function CompareGates(a: seq<Qubit>, b: seq<Qubit>, flag: Qubit, ancilla: Qubit): seq<Gate> {
    XLayer(b)
    + [Block(AdderGates(ancilla, b, a + [flag]))]
    + XLayer(a)
    + [Block(AdderGates(ancilla, b, a))]
    + XLayer(a)
    + XLayer(b)
  }

  predicate Accepts(a: seq<Qubit>, b: seq<Qubit>, flag: Qubit, ancilla: Qubit) {
    && |a| == |b|
    && Distinct(a) && Distinct(b) && Disjoint(a, b)
    && flag !in a && flag !in b && ancilla !in a && ancilla !in b && flag != ancilla
  }

  /** First half: with b complemented, the carry of A + c + (2^n - 1 - B) is the comparison A + c > B. */
  lemma FirstSum(a: seq<Qubit>, b: seq<Qubit>, flag: Qubit, c: nat, s: State, s1: State, s2: State, total: int)
    requires |a| == |b| && Disjoint(a, b) && flag !in b && c <= 1 && Distinct(a + [flag])
    requires s1 == Complement(s, b)
    requires total == Val(s1, a + [flag]) + Val(s1, b) + c
    requires s2 == Write(s1, a + [flag], total)
    ensures flag in s2 <==> (flag in s) != (Val(s, a) + c > Val(s, b))
    ensures Val(s2, a) == Val(s, a) + c - Val(s, b) - 1 + if Val(s, a) + c > Val(s, b) then 0 else Pow2(|a|)
  {
    var p := Pow2(|a|);
    ValBound(s, a);
    ValBound(s, b);
    ComplementVal(s, s1, b);
    ValAgree(s1, s, a);
    ValSnoc(s1, a, flag);
    ValSnoc(s2, a, flag);
    ValBound(s2, a);
    WriteNear(s1, a + [flag], total, if total >= 2 * p then total - 2 * p else total);
  }

  /** Second half: from x = A + c - B - 1 the complement, an addition and a complement lead back to A. */
  lemma SecondSum(a: seq<Qubit>, b: seq<Qubit>, A: nat, B: nat, c: nat, s2: State, s3: State, s4: State, s5: State, total: int)
    requires |a| == |b| && Distinct(a) && Disjoint(a, b) && A < Pow2(|a|) && B < Pow2(|a|)
    requires Val(s2, a) == A + c - B - 1 + if A + c > B then 0 else Pow2(|a|)
    requires Val(s2, b) == Pow2(|a|) - 1 - B
    requires s3 == Complement(s2, a)
    requires total == Val(s3, a) + Val(s3, b) + c
    requires s4 == Write(s3, a, total)
    requires s5 == Complement(s4, a)
    ensures Val(s5, a) == A
  {
    ComplementVal(s2, s3, a);
    ValAgree(s3, s2, b);
    assert total == Pow2(|a|) - 1 - A + if A + c > B then Pow2(|a|) else 0;
    WriteNear(s3, a, total, Pow2(|a|) - 1 - A);
    ComplementVal(s4, s5, a);
  }

  /** What the six layers of the comparison do to a state. */
  lemma LayersCompare(a: seq<Qubit>, b: seq<Qubit>, flag: Qubit, c: nat, s: State,
                      s1: State, s2: State, s3: State, s4: State, s5: State, total1: int, total2: int)
    requires |a| == |b| && Distinct(a) && Disjoint(a, b) && Distinct(a + [flag])
    requires flag !in a && flag !in b && c <= 1
    requires s1 == Complement(s, b)
    requires total1 == Val(s1, a + [flag]) + Val(s1, b) + c && s2 == Write(s1, a + [flag], total1)
    requires s3 == Complement(s2, a)
    requires total2 == Val(s3, a) + Val(s3, b) + c && s4 == Write(s3, a, total2)
    requires s5 == Complement(s4, a)
    ensures Complement(s5, b) == if Val(s, a) + c > Val(s, b) then Flip(s, flag) else s
  {
    FirstSum(a, b, flag, c, s, s1, s2, total1);
    ComplementVal(s, s1, b);
    ValAgree(s2, s1, b);
    ValBound(s, a);
    ValBound(s, b);
    SecondSum(a, b, Val(s, a), Val(s, b), c, s2, s3, s4, s5, total2);
    ValInjective(s5, s, a);
    OnlyFlagMoves(a, b, flag, s, s1, s2, s3, s4, s5);
  }

  lemma OnlyFlagMoves(a: seq<Qubit>, b: seq<Qubit>, flag: Qubit,
                      s: State, s1: State, s2: State, s3: State, s4: State, s5: State)
    requires Disjoint(a, b) && flag !in a && flag !in b
    requires s1 == Complement(s, b) && s3 == Complement(s2, a) && s5 == Complement(s4, a)
    requires AgreeOff(s2, s1, a + [flag]) && AgreeOff(s4, s3, a)
    requires forall q :: q in a ==> (q in s5 <==> q in s)
    ensures forall q :: q != flag ==> (q in Complement(s5, b) <==> q in s)
    ensures flag in Complement(s5, b) <==> flag in s2
  {
    forall q | q != flag
      ensures q in Complement(s5, b) <==> q in s
    {
      if q !in a { assert q !in a + [flag]; }
    }
  }

  /**
   * The comparator toggles the flag exactly when A + c > B, c being the ancilla bit; every
   * other qubit ends as it started.
   */
  lemma CompareCompares(a: seq<Qubit>, b: seq<Qubit>, flag: Qubit, ancilla: Qubit, s: State)
    requires Accepts(a, b, flag, ancilla)
    ensures Run(CompareGates(a, b, flag, ancilla), s)
         == if Val(s, a) + Bit(s, ancilla) > Val(s, b) then Flip(s, flag) else s
  {
    forall t
      ensures Run(XLayer(a), t) == Complement(t, a)
      ensures Run(XLayer(b), t) == Complement(t, b)
    {
      RunXLayer(a, t);
      RunXLayer(b, t);
    }
    forall t
      ensures Run(AdderGates(ancilla, b, a + [flag]), t) == Write(t, a + [flag], Total(t, ancilla, b, a + [flag]))
      ensures Run(AdderGates(ancilla, b, a), t) == Write(t, a, Total(t, ancilla, b, a))
    {
      AdderAdds(ancilla, b, a + [flag], t);
      AdderAdds(ancilla, b, a, t);
    }
    PartsCompare(a, b, flag, ancilla, XLayer(a), XLayer(b), AdderGates(ancilla, b, a + [flag]), AdderGates(ancilla, b, a), s);
  }

  lemma PartsCompare(a: seq<Qubit>, b: seq<Qubit>, flag: Qubit, ancilla: Qubit,
                     xa: seq<Gate>, xb: seq<Gate>, add1: seq<Gate>, add2: seq<Gate>, s: State)
    requires Accepts(a, b, flag, ancilla) && Distinct(a + [flag])
    requires forall t :: Run(xa, t) == Complement(t, a)
    requires forall t :: Run(xb, t) == Complement(t, b)
    requires forall t :: Run(add1, t) == Write(t, a + [flag], Total(t, ancilla, b, a + [flag]))
    requires forall t :: Run(add2, t) == Write(t, a, Total(t, ancilla, b, a))
    ensures Run(xb + [Block(add1)] + xa + [Block(add2)] + xa + xb, s)
         == if Val(s, a) + Bit(s, ancilla) > Val(s, b) then Flip(s, flag) else s
  {
    var s1 := Run(xb, s);
    var s2 := Run(add1, s1);
    var s3 := Run(xa, s2);
    var s4 := Run(add2, s3);
    var s5 := Run(xa, s4);
    RunSix(xb, [Block(add1)], xa, [Block(add2)], xa, xb, s);
    RunOne(Block(add1), s1);
    RunOne(Block(add2), s3);
    assert Bit(s1, ancilla) == Bit(s, ancilla);
    assert Bit(s3, ancilla) == Bit(s, ancilla) by { assert ancilla !in a + [flag]; }
    LayersCompare(a, b, flag, Bit(s, ancilla), s, s1, s2, s3, s4, s5,
                  Total(s1, ancilla, b, a + [flag]), Total(s3, ancilla, b, a));
  }

  lemma RunSix(a: seq<Gate>, b: seq<Gate>, c: seq<Gate>, d: seq<Gate>, e: seq<Gate>, f: seq<Gate>, s: State)
    ensures Run(a + b + c + d + e + f, s) == Run(f, Run(e, Run(d, Run(c, Run(b, Run(a, s))))))
  {
    RunConcat(a + b + c + d + e, f, s);
    RunConcat(a + b + c + d, e, s);
    RunConcat(a + b + c, d, s);
    RunAround(a, b, c, s);
  }

  method ExpandCompareGT(circuit: Composite, qubitsA: seq<Qubit>, qubitsB: seq<Qubit>,
                         flag: Qubit, ancilla: Qubit, isLSB: bool) returns (ok: bool)
    requires |qubitsA| >= 1
    modifies circuit
    ensures ok <==> Accepts(qubitsA, qubitsB, flag, ancilla)
    ensures ok ==> circuit.instructions == old(circuit.instructions)
                   + CompareGates(Oriented(qubitsA, isLSB), Oriented(qubitsB, isLSB), flag, ancilla)
    ensures !ok ==> circuit.instructions == old(circuit.instructions)
  {
    if |qubitsA| != |qubitsB| { return false; }
    if !Distinct(qubitsA) || !Distinct(qubitsB) { return false; }
    if exists q :: q in qubitsA && q in qubitsB { return false; }
    if flag in qubitsB || flag in qubitsA { return false; }
    if ancilla in qubitsB || ancilla in qubitsA { return false; }
    if flag == ancilla { return false; }

    OrientedSeparate(qubitsA, qubitsB, isLSB);
    EmitCompare(circuit, Oriented(qubitsA, isLSB), Oriented(qubitsB, isLSB), flag, ancilla);
    return true;
  }

  method EmitCompare(circuit: Composite, a: seq<Qubit>, b: seq<Qubit>, flag: Qubit, ancilla: Qubit)
    requires |a| >= 1 && Accepts(a, b, flag, ancilla)
    modifies circuit
    ensures circuit.instructions == old(circuit.instructions) + CompareGates(a, b, flag, ancilla)
  {
    ghost var before := circuit.instructions;
    AddXLayer(circuit, b);
    var adder1 := new Composite();
    var ok1 := ExpandRippleCarryAdder(adder1, b, a + [flag], ancilla, false);
    assert a + [flag] == Written(b, a + [flag], false);
    assert adder1.instructions == AdderGates(ancilla, b, a + [flag]);
    circuit.AddInstruction(Block(adder1.instructions));
    AddXLayer(circuit, a);
    var adder2 := new Composite();
    var ok2 := ExpandRippleCarryAdder(adder2, b, a + [flag], ancilla, true);
    assert a == Written(b, a + [flag], true);
    assert adder2.instructions == AdderGates(ancilla, b, a);
    circuit.AddInstruction(Block(adder2.instructions));
    AddXLayer(circuit, a);
    AddXLayer(circuit, b);
    PrefixSix(before, XLayer(b), [Block(AdderGates(ancilla, b, a + [flag]))], XLayer(a),
              [Block(AdderGates(ancilla, b, a))], XLayer(a), XLayer(b));
  }

  lemma PrefixSix<T>(x: seq<T>, a: seq<T>, b: seq<T>, c: seq<T>, d: seq<T>, e: seq<T>, f: seq<T>)
    ensures x + a + b + c + d + e + f == x + (a + b + c + d + e + f)
  {}
}
