/** The division circuit on a caller's registers. */
module ProperFractionDivision {
  import opened Registers
  import opened Gates
  import opened Division
  import opened DivisionValue

  /** Both operands extended by their ancillas; the last ancilla serves the adders. */
  function Layout(numerator: seq<Qubit>, denominator: seq<Qubit>, fraction: seq<Qubit>, ancilla: seq<Qubit>): Wires
    requires |ancilla| == 2 * |fraction| + 1
  {
    var p := |fraction|;
    Wires(numerator + ancilla[..p], denominator + ancilla[p..2 * p], fraction, ancilla[2 * p])
  }

  predicate AcceptsOperands(numerator: seq<Qubit>, denominator: seq<Qubit>) {
    && |numerator| == |denominator|
    && Distinct(denominator) && Distinct(numerator)
    && Disjoint(denominator, numerator)
  }

  /** Registers that a caller may pass: the fraction and the ancillas are further qubits, listed once. */
  ghost predicate Usable(numerator: seq<Qubit>, denominator: seq<Qubit>, fraction: seq<Qubit>, ancilla: seq<Qubit>) {
    && |ancilla| == 2 * |fraction| + 1 && |numerator| + |fraction| >= 1
    && Distinct(fraction) && Distinct(ancilla) && Disjoint(fraction, ancilla)
    && Disjoint(fraction, numerator) && Disjoint(fraction, denominator)
    && Disjoint(ancilla, numerator) && Disjoint(ancilla, denominator)
  }

  /** The layout an accepted call works on. */
  function LayoutOf(numerator: seq<Qubit>, denominator: seq<Qubit>, fraction: seq<Qubit>, ancilla: seq<Qubit>, isLSB: bool): Wires
    requires |ancilla| == 2 * |fraction| + 1
  {
    Layout(Oriented(numerator, isLSB), Oriented(denominator, isLSB), Oriented(fraction, isLSB), ancilla)
  }

  lemma LayoutValid(numerator: seq<Qubit>, denominator: seq<Qubit>, fraction: seq<Qubit>, ancilla: seq<Qubit>, isLSB: bool)
    requires AcceptsOperands(numerator, denominator) && Usable(numerator, denominator, fraction, ancilla)
    ensures LayoutOf(numerator, denominator, fraction, ancilla, isLSB).Valid()
    ensures |Oriented(numerator, isLSB)| == |numerator| && |Oriented(fraction, isLSB)| == |fraction|
  {
    var p := |fraction|;
    OrientedSeparate(denominator, numerator, isLSB);
    OrientedMembers(fraction, isLSB);
    SlicesApart(ancilla, 0, p, p, 2 * p);
    SlicesApart(ancilla, 0, 2 * p, 2 * p, 2 * p + 1);
    assert ancilla[..p] == ancilla[0..p] && ancilla[2 * p] == ancilla[2 * p..2 * p + 1][0];
    ExtendedRegister(Oriented(numerator, isLSB), ancilla, 0, p);
    ExtendedRegister(Oriented(denominator, isLSB), ancilla, p, 2 * p);
    assert ancilla[2 * p] in ancilla;
  }

  lemma ExtendedRegister(reg: seq<Qubit>, ancilla: seq<Qubit>, i: nat, j: nat)
    requires i <= j < |ancilla| && Distinct(reg) && Distinct(ancilla) && Disjoint(ancilla, reg)
    ensures Distinct(reg + ancilla[i..j]) && ancilla[|ancilla| - 1] !in reg + ancilla[i..j]
    ensures forall q :: q in reg + ancilla[i..j] ==> q in reg || q in ancilla
  {
    var all := reg + ancilla[i..j];
    forall k, l | 0 <= k < l < |all|
      ensures all[k] != all[l]
    {
      if k < |reg| <= l { assert all[l] in ancilla; }
    }
    assert ancilla[|ancilla| - 1] in ancilla;
  }

  /** A proper fraction, clean result and ancillas, and room for every shift. */
  ghost predicate Proper(t: State, num: seq<Qubit>, den: seq<Qubit>, res: seq<Qubit>, ancilla: seq<Qubit>) {
    && Val(t, num) < Val(t, den)
    && (forall q :: q in res || q in ancilla ==> q !in t)
    && (|res| <= 2 || Val(t, den) * Pow2(1 + |res| * (|res| - 1) / 2) <= Pow2(|num| + |res|))
  }

  lemma ExtendedValue(t: State, reg: seq<Qubit>, more: seq<Qubit>)
    requires forall q :: q in more ==> q !in t
    ensures Val(t, reg + more) == Val(t, reg)
  {
    ValConcat(t, reg, more);
    ZeroVal(t, more);
  }

  /** On the layout the fraction of the caller's two operands comes out, and nothing else changes. */
  lemma LayoutDivides(d: Wires, num: seq<Qubit>, den: seq<Qubit>, res: seq<Qubit>, ancilla: seq<Qubit>, t: State)
    requires |ancilla| == 2 * |res| + 1 && d == Layout(num, den, res, ancilla) && d.Valid() && |num| == |den|
    requires Val(t, num) < Val(t, den) && (forall q :: q in res || q in ancilla ==> q !in t)
    requires ShiftRoom(|res|, |num|, Val(t, den))
    ensures Distinct(res)
    ensures Write(t, d.res, QuotientOf(t, d, 0)) == Write(t, res, Floor(|res|, Val(t, num), Val(t, den)))
  {
    LayoutNumbers(d, num, den, res, ancilla, t);
    ValBound(t, den);
    DivisionFits(d, |num|, t, Val(t, num), Val(t, den));
  }

  lemma LayoutNumbers(d: Wires, num: seq<Qubit>, den: seq<Qubit>, res: seq<Qubit>, ancilla: seq<Qubit>, t: State)
    requires |ancilla| == 2 * |res| + 1 && d == Layout(num, den, res, ancilla)
    requires forall q :: q in ancilla ==> q !in t
    ensures d.res == res && d.ancilla !in t && |d.num| == |num| + |res| && |d.den| == |den| + |res|
    ensures Val(t, d.num) == Val(t, num) && Val(t, d.den) == Val(t, den)
  {
    var p := |res|;
    assert ancilla[2 * p] in ancilla;
    ExtendedValue(t, num, ancilla[..p]);
    ExtendedValue(t, den, ancilla[p..2 * p]);
  }

  // ---------------------------------------------------------------- ProperFractionDivision::expand

  /**
   * On every state the quotient bits of the layout; in particular, for a proper fraction with room on clean
   * qubits, floor(2^p N / D) where N and D are what numerator and denominator hold.
   */
  method ExpandProperFractionDivision(circuit: Composite, numerator: seq<Qubit>, denominator: seq<Qubit>,
                                      fraction: seq<Qubit>, ancilla: seq<Qubit>, isLSB: bool)
    returns (ok: bool)
    requires Usable(numerator, denominator, fraction, ancilla)
    modifies circuit
    ensures ok <==> AcceptsOperands(numerator, denominator)
    ensures ok ==> var d := LayoutOf(numerator, denominator, fraction, ancilla, isLSB);
                   && d.Valid()
                   && forall s ::
                        Run(circuit.instructions, s)
                          == var t := Run(old(circuit.instructions), s); Write(t, d.res, QuotientOf(t, d, 0))
    ensures ok ==> var num, den, res := Oriented(numerator, isLSB), Oriented(denominator, isLSB), Oriented(fraction, isLSB);
                   Distinct(res) && forall s ::
                     var t := Run(old(circuit.instructions), s);
                     Proper(t, num, den, res, ancilla) ==>
                       Run(circuit.instructions, s) == Write(t, res, Floor(|res|, Val(t, num), Val(t, den)))
    ensures !ok ==> circuit.instructions == old(circuit.instructions)
  {
    if |numerator| != |denominator| { return false; }
    if !Distinct(denominator) || !Distinct(numerator) { return false; }
    if exists q :: q in denominator && q in numerator { return false; }
    LayoutValid(numerator, denominator, fraction, ancilla, isLSB);
    var d := ExtendRegisters(numerator, denominator, fraction, ancilla, isLSB);
    var gates := BuildDivision(d);
    ghost var before := circuit.instructions;
    circuit.AddInstructions(gates);
    forall s { RunConcat(before, gates, s); }
    LayoutsDivide(d, numerator, denominator, fraction, ancilla, isLSB);
    return true;
  }

  lemma LayoutsDivide(d: Wires, numerator: seq<Qubit>, denominator: seq<Qubit>, fraction: seq<Qubit>, ancilla: seq<Qubit>,
                      isLSB: bool)
    requires AcceptsOperands(numerator, denominator) && Usable(numerator, denominator, fraction, ancilla)
    requires d == LayoutOf(numerator, denominator, fraction, ancilla, isLSB)
    ensures d.Valid()
    ensures var num, den, res := Oriented(numerator, isLSB), Oriented(denominator, isLSB), Oriented(fraction, isLSB);
            Distinct(res) && forall t :: Proper(t, num, den, res, ancilla) ==>
              Write(t, d.res, QuotientOf(t, d, 0)) == Write(t, res, Floor(|res|, Val(t, num), Val(t, den)))
  {
    var num, den, res := Oriented(numerator, isLSB), Oriented(denominator, isLSB), Oriented(fraction, isLSB);
    LayoutValid(numerator, denominator, fraction, ancilla, isLSB);
    OrientedMembers(denominator, isLSB);
    OrientedMembers(fraction, isLSB);
    forall t | Proper(t, num, den, res, ancilla)
      ensures Write(t, d.res, QuotientOf(t, d, 0)) == Write(t, res, Floor(|res|, Val(t, num), Val(t, den)))
    {
      RoomInClosedForm(|res|, |num|, Val(t, den));
      LayoutDivides(d, num, den, res, ancilla, t);
    }
  }

  method ExtendRegisters(numerator: seq<Qubit>, denominator: seq<Qubit>, fraction: seq<Qubit>, ancilla: seq<Qubit>, isLSB: bool)
    returns (d: Wires)
    requires |ancilla| == 2 * |fraction| + 1
    ensures d == LayoutOf(numerator, denominator, fraction, ancilla, isLSB)
  {
    var num, den, result := Oriented(numerator, isLSB), Oriented(denominator, isLSB), Oriented(fraction, isLSB);
    var precision := |result|;
    var numreg, denreg := num, den;
    for i := 0 to precision
      invariant numreg == num + ancilla[..i]
    {
      numreg := numreg + [ancilla[i]];
    }
    for i := 0 to precision
      invariant denreg == den + ancilla[precision..precision + i]
    {
      denreg := denreg + [ancilla[precision + i]];
    }
    d := Wires(numreg, denreg, result, ancilla[2 * precision]);
  }
}
