/** A flag that is inverted when two registers hold the same bits. */
module EqualityChecker {
  import opened Registers
  import opened Gates
  import opened Inverse
  import opened Controls
  import opened ControlledSwap
  import opened Footprints
  import opened AncillaLadder

  /** The flag under all of b: directly, or by way of clean ancillas. */
  function FlagGates(b: seq<Qubit>, flag: Qubit, anc: seq<Qubit>, useAncilla: bool): seq<Gate>
    requires useAncilla ==> 2 <= |b| == |anc| + 1
  {
    if useAncilla then Ladder(b, anc, [X(flag)]) else [Controlled(b, [X(flag)])]
  }

  function Comparing(a: seq<Qubit>, b: seq<Qubit>, flag: Qubit, anc: seq<Qubit>, useAncilla: bool): seq<Gate>
    requires |a| == |b| && (useAncilla ==> 2 <= |b| == |anc| + 1)
  {
    CXLayer(a, b) + XLayer(b) + FlagGates(b, flag, anc, useAncilla) + XLayer(b) + CXLayer(a, b)
  }

  function EqualityGates(a: seq<Qubit>, b: seq<Qubit>, flag: Qubit, on: seq<Qubit>, off: seq<Qubit>,
                         anc: seq<Qubit>, useAncilla: bool): seq<Gate>
    requires |a| == |b| && (useAncilla ==> 2 <= |b| == |anc| + 1)
  {
    var tot := Comparing(a, b, flag, anc, useAncilla);
    Guarded(on, off, tot, tot)
  }

  ghost predicate Apart(a: seq<Qubit>, b: seq<Qubit>, flag: Qubit, anc: seq<Qubit>, useAncilla: bool) {
    && |a| == |b| && Distinct(b) && Disjoint(a, b) && flag !in a && flag !in b
    && (useAncilla ==> 2 <= |b| == |anc| + 1 && Distinct(anc) && Disjoint(b, anc) && Disjoint(a, anc) && flag !in anc)
  }

  /** Both ways of setting the flag agree when the ancillas are clean. */
  lemma FlagActs(b: seq<Qubit>, flag: Qubit, anc: seq<Qubit>, useAncilla: bool, s: State)
    requires Distinct(b) && flag !in b
    requires useAncilla ==> 2 <= |b| == |anc| + 1 && Distinct(anc) && Disjoint(b, anc) && flag !in anc
    requires useAncilla ==> forall q :: q in anc ==> q !in s
    ensures Run(FlagGates(b, flag, anc, useAncilla), s) == if AllOn(s, b) then Flip(s, flag) else s
  {
    RunOne(X(flag), s);
    if useAncilla {
      assert Mentions([X(flag)]) == {flag} + Mentions([X(flag)][1..]);
      assert Targets([X(flag)]) == {flag} + Targets([X(flag)][1..]);
      LadderActs(b, anc, [X(flag)], s);
    } else {
      RunOne(Controlled(b, [X(flag)]), s);
    }
  }

  /** a and b hold the same bits. */
  ghost predicate Equal(s: State, a: seq<Qubit>, b: seq<Qubit>)
    requires |a| == |b|
  {
    forall k :: 0 <= k < |a| ==> (a[k] in s <==> b[k] in s)
  }

  /** Holding the same bits is holding the same number. */
  lemma {:induction false} EqualIsSameValue(s: State, a: seq<Qubit>, b: seq<Qubit>)
    requires |a| == |b|
    ensures Equal(s, a, b) <==> Val(s, a) == Val(s, b)
  {
    if a != [] {
      EqualIsSameValue(s, a[1..], b[1..]);
      if Equal(s, a, b) {
        assert forall k :: 0 <= k < |a[1..]| ==> a[1..][k] == a[k + 1] && b[1..][k] == b[k + 1];
      }
      if Val(s, a) == Val(s, b) {
        forall k | 0 <= k < |a|
          ensures a[k] in s <==> b[k] in s
        {
          if k > 0 { assert a[k] == a[1..][k - 1] && b[k] == b[1..][k - 1]; }
        }
      }
    }
  }

  /** b holds 1 wherever the registers agree. */
  function Prepared(s: State, a: seq<Qubit>, b: seq<Qubit>): State
    requires |a| == |b|
  {
    Complement(Run(CXLayer(a, b), s), b)
  }

  lemma PreparedTells(s: State, a: seq<Qubit>, b: seq<Qubit>)
    requires |a| == |b| && Distinct(b) && Disjoint(a, b)
    ensures AllOn(Prepared(s, a, b), b) <==> Equal(s, a, b)
    ensures AgreeOff(Prepared(s, a, b), s, b)
    ensures Run(CXLayer(a, b), Complement(Prepared(s, a, b), b)) == s
  {
    var t := Prepared(s, a, b);
    RunCXLayer(a, b, s);
    CXLayerTwice(a, b, s);
    ComplementTwice(Run(CXLayer(a, b), s), b);
    assert forall k :: 0 <= k < |b| ==> b[k] in b && (b[k] in t <==> (a[k] in s <==> b[k] in s));
    if AllOn(t, b) {
      assert forall k :: 0 <= k < |b| ==> b[k] in t;
    }
  }

  /** The flag takes no part in the preparation. */
  lemma PreparedFlip(s: State, a: seq<Qubit>, b: seq<Qubit>, flag: Qubit)
    requires |a| == |b| && Distinct(b) && Disjoint(a, b) && flag !in a && flag !in b
    ensures Prepared(Flip(s, flag), a, b) == Flip(Prepared(s, a, b), flag)
  {
    var x, y := Prepared(Flip(s, flag), a, b), Flip(Prepared(s, a, b), flag);
    RunCXLayer(a, b, s);
    RunCXLayer(a, b, Flip(s, flag));
    forall q
      ensures q in x <==> q in y
    {
      if q in b {
        var k :| 0 <= k < |b| && b[k] == q;
        assert a[k] in a;
      }
    }
  }

  /** The comparison toggles the flag exactly when the registers are equal, and restores everything else. */
  lemma ComparingActs(a: seq<Qubit>, b: seq<Qubit>, flag: Qubit, anc: seq<Qubit>, useAncilla: bool, s: State)
    requires Apart(a, b, flag, anc, useAncilla) && (useAncilla ==> forall q :: q in anc ==> q !in s)
    ensures Run(Comparing(a, b, flag, anc, useAncilla), s) == if Equal(s, a, b) then Flip(s, flag) else s
  {
    var copy, invert, mark := CXLayer(a, b), XLayer(b), FlagGates(b, flag, anc, useAncilla);
    var t := Prepared(s, a, b);
    var u := if Equal(s, a, b) then Flip(s, flag) else s;
    RunAround(copy, invert, mark, s);
    RunXLayer(b, Run(copy, s));
    PreparedTells(s, a, b);
    PreparedTells(u, a, b);
    PreparedFlip(s, a, b, flag);
    FlagActs(b, flag, anc, useAncilla, t);
    RunAround(copy + invert + mark, invert, copy, s);
    RunXLayer(b, Prepared(u, a, b));
  }

  /**
   * The flag is inverted exactly when the controls are enabled and the registers hold the same number;
   * no other qubit ever changes, whether or not clean ancillas are used.
   */
  lemma EqualityActs(a: seq<Qubit>, b: seq<Qubit>, flag: Qubit, on: seq<Qubit>, off: seq<Qubit>,
                     anc: seq<Qubit>, useAncilla: bool, s: State)
    requires Apart(a, b, flag, anc, useAncilla) && Consistent(on, off)
    requires Disjoint(off, a) && Disjoint(off, b) && flag !in off && Disjoint(off, anc)
    requires useAncilla ==> forall q :: q in anc ==> q !in s
    ensures Run(EqualityGates(a, b, flag, on, off, anc, useAncilla), s)
         == if Enabled(s, on, off) && Val(s, a) == Val(s, b) then Flip(s, flag) else s
  {
    var s1, tot := Complement(s, off), Comparing(a, b, flag, anc, useAncilla);
    var v := if (flag in s) == Equal(s, a, b) then 0 else 1;
    EqualIsSameValue(s, a, b);
    OffUnseen(s, s1, off, a, b);
    ComparingActs(a, b, flag, anc, useAncilla, s1);
    FlagWritten(s, flag, Equal(s, a, b), v);
    FlagWritten(s1, flag, Equal(s, a, b), v);
    if on == [] && off == [] { assert s1 == s; }
    GuardedWrites(on, off, tot, tot, [flag], v, s);
  }

  lemma OffUnseen(s: State, s1: State, off: seq<Qubit>, a: seq<Qubit>, b: seq<Qubit>)
    requires |a| == |b| && Disjoint(off, a) && Disjoint(off, b) && s1 == Complement(s, off)
    ensures Equal(s1, a, b) <==> Equal(s, a, b)
  {
    forall k | 0 <= k < |a|
      ensures (a[k] in s1 <==> a[k] in s) && (b[k] in s1 <==> b[k] in s)
    {
      assert a[k] in a && b[k] in b;
    }
  }

  lemma FlagWritten(s: State, flag: Qubit, equal: bool, v: int)
    requires v == if (flag in s) == equal then 0 else 1
    ensures Write(s, [flag], v) == if equal then Flip(s, flag) else s
  {
    var t := if equal then Flip(s, flag) else s;
    assert [flag][0] == flag && [flag][1..] == [];
    WriteUnique(s, t, [flag], v);
  }

  // ---------------------------------------------------------------- EqualityChecker::expand

  method AddFlagGates(circuit: Composite, b: seq<Qubit>, flag: Qubit, anc: seq<Qubit>, useAncilla: bool)
    requires useAncilla ==> 2 <= |b| == |anc| + 1
    modifies circuit
    ensures circuit.instructions == old(circuit.instructions) + FlagGates(b, flag, anc, useAncilla)
  {
    if useAncilla {
      var mcu := new Composite();
      ExpandAncillaLadder(mcu, b, anc, [X(flag)]);
      assert mcu.instructions == Ladder(b, anc, [X(flag)]);
      circuit.AddInstructions(mcu.instructions);
    } else {
      circuit.AddInstruction(Controlled(b, [X(flag)]));
    }
  }

  method BuildComparing(a: seq<Qubit>, b: seq<Qubit>, flag: Qubit, anc: seq<Qubit>, useAncilla: bool) returns (tot: seq<Gate>)
    requires |a| == |b| && (useAncilla ==> 2 <= |b| == |anc| + 1)
    ensures tot == Comparing(a, b, flag, anc, useAncilla)
  {
    var circuit := new Composite();
    AddCXLayer(circuit, a, b);
    AddXLayer(circuit, b);
    AddFlagGates(circuit, b, flag, anc, useAncilla);
    AddXLayer(circuit, b);
    AddCXLayer(circuit, a, b);
    tot := circuit.instructions;
    StartingEmpty([], CXLayer(a, b), XLayer(b), FlagGates(b, flag, anc, useAncilla));
  }

  lemma StartingEmpty(none: seq<Gate>, copy: seq<Gate>, invert: seq<Gate>, mark: seq<Gate>)
    requires none == []
    ensures none + copy + invert + mark + invert + copy == copy + invert + mark + invert + copy
  {
    assert none + copy == copy;
  }

  method ExpandEqualityChecker(circuit: Composite, a: seq<Qubit>, b: seq<Qubit>, flag: Qubit, on: seq<Qubit>, off: seq<Qubit>,
                               anc: seq<Qubit>, useAncilla: bool)
    requires |a| == |b| && (useAncilla ==> 2 <= |b| == |anc| + 1)
    modifies circuit
    ensures circuit.instructions == old(circuit.instructions) + EqualityGates(a, b, flag, on, off, anc, useAncilla)
  {
    ghost var before := circuit.instructions;
    AddXLayer(circuit, off);
    var tot := BuildComparing(a, b, flag, anc, useAncilla);
    AddGuarded(circuit, on, off, tot, tot, before);
  }
}
